# MCMA trading bot: a verified model of the decision core

The project models the decision engine of the MCMA crypto trading bot and proves properties about it in Dafny. It covers these parts:

- **Signal record.** Its validation and its actionability test.
- **Order manager.** The entry gate pipeline, which runs in a fixed order and stops at the first failure. It owns the cooldown map, the per-coin and total daily trade counters, and the lazy daily reset.
- **Position manager.** The per-coin state map with its high-water mark. Each monitoring tick removes the states of closed positions and applies the fixed stop-loss / take-profit rule. It also has the read-only "which would exit" query and the emergency close-all.
- **Trading bot.** It registers the signal generators and schedules them by check interval. It collects the non-HOLD signals of every coin, hands them to the order manager, and keeps the lifecycle flags.
- **Signal generators.** The decision rules and strength formulas of the SMA (5 min), RSI (1 h), MACD (15 min), 24 h range-low and 1 min scalping generators. The SMA generator keeps a per-coin trend memory.
- **Backtest page.**
  - The BUY/SELL trade-pairing simulation.
  - The signal loops of the range, SMA and MACD backtests.
  - The win/loss statistics and the parameter-combination counts.
  - The two "best result per coin" selections.
- **Backtest results loader.** Latest-file selection, the parameter cache, filename parsing and the singleton accessor.
- **Debug settings store.**

What the model takes as inputs:

- **Time.** Time is integer seconds and dates are integer day numbers. Prices and percentages are `real`.
- **The gateway.** Everything the exchange gateway answers is an input: open positions, withdrawable balance, price, and the order or close status. A query that raised an exception is `None`.
- **Indicators.** SMA, EMA, RSI and MACD histogram values are real inputs; a pandas NaN is `None`. A candle request is modelled only by how many rows it returns: `min(available, limit)`.
- **Objects.** An object whose methods update its fields in place is a Dafny class with those fields. Its methods are specified by a pure function of the old state: `ProcessSpec`, `TickSpec`, `ParametersLookup`, `Update` and the generators' `GenerateSpec`. The properties are proved as lemmas about those functions.

Behaviour of the code worth noting:

- **Order sizes.** Sizes are `round(usd / price, 5)`: five decimal places, with Python's `round` (ties to even).
- **Status is not read-only.** `get_status` goes through `get_all_positions`, which updates and saves the position states.
- **Persistence.** A save writes in place, so a save is modelled only as a counter.
- **Available results.** `get_all_available_results` keeps the first listed file per coin and signal, although its comment speaks of the latest one (see Findings).

## Model

| member | source | states |
|---|---|---|
| Signals.ParseAction | core/signal.py:33 | only "BUY", "SELL" and "HOLD" are accepted, and the parsed action prints back as the same name |
| Signals.NewSignal | core/signal.py:31-36 | a record is built exactly when the action is one of the three names, 0 <= strength <= 1 and coin and source are non-empty; the built record carries the given fields and is valid |
| Signals.IsActionable | core/signal.py:38-40 | actionable iff the action is not HOLD and the strength reaches the threshold (default 0.7); HOLD is never actionable |
| Signals.ActionableAtLowerThreshold | core/signal.py:38-40 | a record actionable at some threshold is actionable at every lower one |
| OrderManagement.ShippedThresholds | config/trading_settings.py:6-26 | with the shipped trading settings the strength threshold is 0.75, and the cooldown falls back to the 300 s default because the key is absent |
| OrderManagement.ResetIfNeeded | managers/order_manager.py:48-55 | when today is later than the last reset the daily counters are cleared and the date is set to today; otherwise nothing changes; cooldowns are never touched |
| OrderManagement.CheckDuplicatePosition | managers/order_manager.py:80-103 | passes iff the positions query succeeded and the coin has no open position; a failed query rejects |
| OrderManagement.CheckPositionLimit | managers/order_manager.py:57-78 | passes iff the positions query succeeded and fewer than max_positions are open; a failed query rejects |
| OrderManagement.CheckCooldown | managers/order_manager.py:105-126 | a coin never entered passes; otherwise it passes iff at least the cooldown period has elapsed since its last entry, so exactly the period passes |
| OrderManagement.CooldownEligibilityPersists | managers/order_manager.py:115-126 | once a coin is out of cooldown it stays out at every later time |
| OrderManagement.CheckBalance | managers/order_manager.py:128-166 | passes iff the balance query succeeded and the withdrawable amount covers the position size |
| OrderManagement.RoundHalfEven | managers/order_manager.py:256-261 | the result is within half a unit of the input, and an exact tie goes to the even integer (Python's round) |
| OrderManagement.Round5 | managers/order_manager.py:256-261 | the order size is a multiple of 0.00001 within half a step of usd/price, and an exact half-step tie goes to the even multiple (Python's round) |
| OrderManagement.ScaledBack | managers/order_manager.py:256-261 | scaling the rounded integer back by 0.00001 gives a five-decimal value within 0.000005 of the input |
| OrderManagement.SideFor | managers/order_manager.py:263-264 | the order side is "buy" iff the signal is BUY |
| OrderManagement.Decide | managers/order_manager.py:168-232 | the gates run in order: HOLD, strength, duplicate, position limit, cooldown, balance. Each rejection happens exactly when its own gate fails after every earlier gate passed. An order is submitted only when all gates pass and a non-zero price exists, and it is for a coin with no open position, with size round(usd/price, 5) and the mapped side |
| OrderManagement.RecordEntry | managers/order_manager.py:218-224 | the bookkeeping after a confirmed order: the coin's cooldown starts now, its daily count and the daily total grow by one, and every other coin's count is unchanged |
| OrderManagement.ProcessSpec | managers/order_manager.py:168-232 | success iff an order was submitted and the gateway answered 'ok'. Without success the counters are exactly the daily reset's; with success they are the reset counters plus the entry. Success implies no open position for the coin and an actionable signal. The per-coin counts keep summing to the daily total |
| OrderManagement.StopLossTakeProfit | managers/order_manager.py:285-314 | the levels lie at the given percentages below and above the entry; for a long the stop is below and the target above, for a short the reverse |
| OrderManagement.CoinsInCooldown | managers/order_manager.py:316-328 | exactly the coins whose last entry lies less than 300 s back |
| OrderManagement.OrderManager.constructor | managers/order_manager.py:28-46 | empty cooldowns and counters, last reset date today |
| OrderManagement.OrderManager.ResetDailyCountersIfNeeded | managers/order_manager.py:48-55 | the new state is ResetIfNeeded of the old state, and the counts still sum to the total |
| OrderManagement.OrderManager.ProcessSignal | managers/order_manager.py:168-232 | the result and the new state are ProcessSpec of the old state; the order handed to the gateway is the one Decide describes (none for a rejected signal); the counter invariant is preserved |
| OrderManagement.OrderManager.RecordSuccessfulEntry | managers/order_manager.py:218-224 | the new state is RecordEntry of the old state, and the counter invariant is preserved |
| OrderManagement.OrderManager.Admit | managers/order_manager.py:186-216 | the gate sequence with early returns, followed by the order execution, ends with the result and the submitted order that Decide describes |
| OrderManagement.OrderManager.ExecuteOrder | managers/order_manager.py:234-283 | without a usable price nothing is submitted and the result is false; otherwise it submits the sized order with the mapped side, and the result is the gateway's answer |
| OrderManagement.OrderManager.GetStats | managers/order_manager.py:316-328 | the daily totals as stored, and the number of coins in the 300 s window, which is never more than the coins ever entered |
| PositionManagement.Coins | managers/position_manager.py:384-387 | the coin of every position, in order |
| PositionManagement.CheckExitConditions | managers/position_manager.py:204-273 | stop loss iff profit <= -stop_loss_percent; otherwise take profit iff profit >= take_profit_percent; otherwise hold |
| PositionManagement.ShippedExitExamples | managers/position_manager.py:248-267 | with the shipped 2.2 % / 10.12 %: -2.5 % and exactly -2.2 % stop out, 10.5 % takes profit, 10.0 % holds |
| PositionManagement.UpdateState | managers/position_manager.py:80-107 | a new coin starts with the high-water mark at the current profit and the trailing flag clear. For a known coin the mark becomes max(old, profit), first_seen is kept and last_updated is now. Every other coin is untouched, and the mark never decreases |
| PositionManagement.UpdateStore | managers/position_manager.py:80-107 | the update is followed by one save |
| PositionManagement.CleanupStore | managers/position_manager.py:109-124 | exactly the states of coins not open are deleted, the others are unchanged, and a save happens only if something was removed |
| PositionManagement.CloseStore | managers/position_manager.py:291-307 | a confirmed close deletes the coin's state (a no-op for an absent coin); a failed close leaves everything intact |
| PositionManagement.ExitList | managers/position_manager.py:394-415 | at most one exit per position |
| PositionManagement.ExitListMembership | managers/position_manager.py:394-415 | (coin, reason) is listed iff some position of that coin fires that exit rule |
| PositionManagement.ApplyTickUntouched | managers/position_manager.py:171-202 | a tick leaves the state of a coin it was not given unchanged |
| PositionManagement.ApplyTickKeys | managers/position_manager.py:171-202 | after the per-position loop the tracked coins are the old ones plus the open ones, minus those closed with confirmation |
| PositionManagement.TickKeys | managers/position_manager.py:171-202 | after a full tick the tracked coins are exactly the open coins minus those closed with confirmation |
| PositionManagement.EmptyTickClears | managers/position_manager.py:177-181 | an empty positions answer, whatever its cause, clears every tracked state, with a save only if something was tracked |
| PositionManagement.ApplyTickEntry | managers/position_manager.py:171-202 | an open coin that survives the tick holds exactly the state the update computed from its reading |
| PositionManagement.TickHighWater | managers/position_manager.py:99-107 | after a tick a surviving coin's high-water mark is the max of its old mark and the new reading, or the reading for a new coin |
| PositionManagement.TrackIsMaximum | managers/position_manager.py:99-107 | over a series of readings the high-water mark is the maximum reading (and the old mark) |
| PositionManagement.CloseAllKeys | managers/position_manager.py:379-392 | close-all removes exactly the coins whose close was confirmed and keeps the other states unchanged |
| PositionManagement.PositionManager.constructor | managers/position_manager.py:31-52 | the loaded states, no saves yet, monitoring off |
| PositionManagement.PositionManager.UpdatePositionState | managers/position_manager.py:80-107 | the new store is UpdateStore of the old one |
| PositionManagement.PositionManager.CleanupClosedPositions | managers/position_manager.py:109-124 | the new store is CleanupStore of the old one |
| PositionManagement.PositionManager.ClosePosition | managers/position_manager.py:275-312 | the new store is CloseStore of the old one |
| PositionManagement.PositionManager.CheckPositions | managers/position_manager.py:171-202 | the close calls are ExitList of the positions, in order, and the new store is TickSpec of the old one |
| PositionManagement.PositionManager.GetPositionsToSell | managers/position_manager.py:394-415 | exactly the coins whose exit rule fires, with the reason; nothing is closed and nothing changes |
| PositionManagement.PositionManager.ForceCloseAll | managers/position_manager.py:379-392 | a close is attempted for every position in order (none without positions); the store loses exactly the confirmed coins |
| PositionManagement.PositionManager.GetAllPositions | managers/position_manager.py:332-377 | every position is returned in order, paired (when coins are distinct) with its freshly updated state, and the store is updated for each |
| PositionManagement.PositionManager.GetStats | managers/position_manager.py:417-436 | the position count, the summed unrealized pnl, the monitoring flag and the tracked-state count after the states are updated |
| PositionManagement.PositionManager.StartMonitoring | managers/position_manager.py:126-144 | sets the monitoring flag and changes no state |
| PositionManagement.PositionManager.StopMonitoring | managers/position_manager.py:146-154 | clears the monitoring flag and changes no state |
| TradingBotCore.Register | core/trading_bot.py:88-133 | one branch appends its generator exactly when its flag is set and keeps the list free of repetitions |
| TradingBotCore.RegisterAllMembership | core/trading_bot.py:81-133 | after the branches the list holds the earlier generators plus exactly the enabled branches |
| TradingBotCore.RegisterAllDistinct | core/trading_bot.py:81-133 | no generator is registered twice |
| TradingBotCore.InitSignalGeneratorsMembership | core/trading_bot.py:81-133 | exactly the eight branch generators whose flag is set are registered; scalping_1min, which has no branch, never is |
| TradingBotCore.InitSignalGeneratorsDistinct | core/trading_bot.py:81-133 | the registered list has no repetition |
| TradingBotCore.RegisterAllConcat | core/trading_bot.py:81-133 | running two runs of branches in turn equals running them as one |
| TradingBotCore.RegisterAllEnabled | core/trading_bot.py:81-133 | branches whose flags are all set are all registered, in branch order |
| TradingBotCore.RegisterAllDisabled | core/trading_bot.py:81-133 | branches whose flags are all clear register nothing |
| TradingBotCore.ShippedSplit | core/trading_bot.py:81-133 | with the shipped flags the branch list splits into the enabled RSI/SMA run followed by the disabled range/MACD run |
| TradingBotCore.ShippedOnRegistered | core/trading_bot.py:90-113 | the shipped enabled run registers rsi_1min, rsi_5min, rsi_1h, rsi_4h and sma_5min |
| TradingBotCore.ShippedOffSkipped | core/trading_bot.py:115-128 | the shipped disabled run (range_7days_low, range_24h_low, macd_15min) registers nothing |
| TradingBotCore.ShippedGenerators | core/trading_bot.py:81-133 | with the shipped flags the bot registers exactly rsi_1min, rsi_5min, rsi_1h, rsi_4h, sma_5min, in that order |
| TradingBotCore.SelectDue | core/trading_bot.py:205-221 | the selected generators are registered ones; only their check times change, all keys are kept |
| TradingBotCore.SelectDueIsFilter | core/trading_bot.py:213-218 | the selected generators are exactly those with now - last_check >= interval (default 60 s), in registration order, and each is stamped with now while the others keep their time |
| TradingBotCore.InitialCheckTimes | core/trading_bot.py:65 | exactly the registered generators have a check time, and each one is 0 |
| TradingBotCore.FirstCycleAllDue | core/trading_bot.py:65 | with every check time at 0, every generator whose interval has passed since time 0 is due on the first cycle |
| TradingBotCore.CollectSignals | core/trading_bot.py:233-267 | at most one signal per generator |
| TradingBotCore.CollectSignalsMembership | core/trading_bot.py:244-250 | a signal is collected iff some generator produced it and it is not HOLD; an exception or None from one generator skips only that one |
| TradingBotCore.NothingDueNothingCollected | core/trading_bot.py:220-221 | with no generator due no coin yields a signal |
| TradingBotCore.ReplayAppend | core/trading_bot.py:256-267 | processing signals one after the other is compositional over concatenation |
| TradingBotCore.ProcessAllStep | core/trading_bot.py:256-267 | processing one more signal applies process_signal to the state the earlier ones left |
| TradingBotCore.ProcessAllAppend | core/trading_bot.py:227-231 | the order manager state after coin after coin equals processing all their signals in sequence |
| TradingBotCore.DispatchAppend | core/trading_bot.py:256-267 | with or without execution, handing signals over in two batches equals handing them over at once |
| TradingBotCore.InitSchedule | core/trading_bot.py:61-65 | the registered generators, none twice, each starting with check time 0 |
| TradingBotCore.TradingBot.constructor | core/trading_bot.py:39-79 | not running; the generators are those registered from the flags, each with check time 0; fresh managers with empty counters and the loaded position states |
| TradingBotCore.TradingBot.CheckSignals | core/trading_bot.py:205-231 | the generators run are the due ones in order, stamped first. The collected signals are those of every coin in list order. The order manager state is every collected signal processed in turn when executing, and unchanged otherwise. Nothing due means nothing collected and no change |
| TradingBotCore.TradingBot.StampDueGenerators | core/trading_bot.py:210-218 | returns the due generators in registration order and stamps each with now |
| TradingBotCore.TradingBot.CheckAllCoins | core/trading_bot.py:224-231 | the coins are checked in list order and their signals concatenated; the order manager sees them in that order when executing |
| TradingBotCore.TradingBot.CheckCoinSignals | core/trading_bot.py:233-267 | the coin's non-HOLD signals in generator order; each goes to process_signal iff orders are executed |
| TradingBotCore.TradingBot.Start | core/trading_bot.py:135-161 | a no-op on the monitoring flag when already running; otherwise running is set and position monitoring starts only if orders are executed |
| TradingBotCore.TradingBot.Stop | core/trading_bot.py:163-184 | not running afterwards; a no-op when not running; otherwise position monitoring stops |
| TradingBotCore.TradingBot.EmergencyStop | core/trading_bot.py:288-300 | a close is attempted for every position before the stop, and the stop's effects follow |
| TradingBotCore.TradingBot.GetStatus | core/trading_bot.py:269-286 | the flags, the coin and generator counts, the order statistics and the position statistics, which update the position states as a side effect |
| CandleFeed.Fetched | signals/sma_5min.py:49-93 | a request returns at most `limit` rows and at most what the exchange holds; a failed request returns nothing |
| Sma5Min.Strength | signals/sma_5min.py:108-143 | HOLD gives 0. With a positive long SMA the strength is non-zero exactly when the SMAs and the price confirm the action, and then it lies in [0.6, 1], reaching 1 at 2 % separation |
| Sma5Min.SeparationBounds | signals/sma_5min.py:123-143 | a relative separation of at least 2 % gives a ratio of at least 0.02 |
| Sma5Min.Decide | signals/sma_5min.py:174-197 | BUY iff short > long and (a crossover or the recorded trend is not bullish); SELL symmetrically; BUY and SELL record the new trend, HOLD records nothing |
| Sma5Min.GenerateSpec | signals/sma_5min.py:145-227 | fewer than long_period + 1 candles gives None and no memory change. Only the queried coin's memory entry can change: it becomes the decided trend on BUY/SELL and is kept on HOLD. An emitted record is valid, for the coin, with the decided action and the strength formula's value for that action |
| Sma5Min.FlatHolds | signals/sma_5min.py:174-197 | with equal SMAs the result is HOLD and the memory is unchanged |
| Sma5Min.TrendSignalledOnce | signals/sma_5min.py:187-197 | a continuing trend is signalled once: the same reading again yields HOLD with strength 0 and leaves the memory as it was |
| Sma5Min.Generator.constructor | signals/sma_5min.py:25-40 | the given periods and an empty trend memory |
| Sma5Min.Generator.GenerateSignal | signals/sma_5min.py:145-227 | the signal and the new trend memory are GenerateSpec of the old memory |
| Rsi1H.LoadParams | signals/rsi_1h.py:155-177 | non-empty backtest parameters override the defaults key by key with per-key fallback; none or an empty set restores all three defaults |
| Rsi1H.RsiAction | signals/rsi_1h.py:203-208 | rsi <= oversold gives BUY; otherwise rsi >= overbought gives SELL; otherwise (and for NaN) HOLD |
| Rsi1H.ClampedRatio | signals/rsi_1h.py:138-153 | the clamp into [0.6, 1], the identity inside it |
| Rsi1H.QuotientBounds | signals/rsi_1h.py:138-153 | the ratios behind the strength reach 0 and 1 at the thresholds' ends |
| Rsi1H.BuyStrength | signals/rsi_1h.py:138-142 | clamp(1 - rsi/oversold, 0.6, 1): within [0.6, 1], 1 at rsi 0, 0.6 at the threshold |
| Rsi1H.SellStrength | signals/rsi_1h.py:145-150 | clamp((rsi - ob)/(100 - ob), 0.6, 1): within [0.6, 1], 1 at rsi 100, 0.6 at the threshold |
| Rsi1H.Strength | signals/rsi_1h.py:126-153 | 0 or within [0.6, 1]; non-zero exactly for a BUY at or below oversold or a SELL at or above overbought |
| Rsi1H.BuyStrengthMonotone | signals/rsi_1h.py:138-142 | a lower RSI never gives a weaker BUY |
| Rsi1H.SellStrengthMonotone | signals/rsi_1h.py:145-150 | a higher RSI never gives a weaker SELL |
| Rsi1H.GenerateSpec | signals/rsi_1h.py:179-234 | fewer than period + 1 candles gives None; otherwise a valid record for the coin, with the threshold action and its strength |
| Rsi1H.EmittedStrengthFloor | signals/rsi_1h.py:126-153 | every emitted BUY or SELL has strength at least 0.6 |
| Rsi1H.Generator.constructor | signals/rsi_1h.py:26-52 | the given parameters are both the defaults and the current ones |
| Rsi1H.Generator.LoadCoinParameters | signals/rsi_1h.py:155-177 | the current parameters become LoadParams of the defaults |
| Rsi1H.Generator.GenerateSignal | signals/rsi_1h.py:179-234 | loads the coin's parameters, then returns GenerateSpec with them |
| Macd15Min.LoadParams | signals/macd_15min.py:161-183 | fast from "period", slow from "oversold", signal line from "overbought", each with its default; none or empty restores the defaults |
| Macd15Min.RequestLimit | signals/macd_15min.py:200-201 | the request is min(slow + signal + 10, 200) |
| Macd15Min.CrossAction | signals/macd_15min.py:215-222 | prev <= 0 < cur gives BUY, prev >= 0 > cur gives SELL, otherwise HOLD |
| Macd15Min.Strength | signals/macd_15min.py:131-159 | HOLD gives 0; otherwise within [0.7, 1], exactly 0.7 for a zero histogram without change, 1 for a large histogram and change |
| Macd15Min.GenerateSpec | signals/macd_15min.py:185-250 | too few candles gives None; otherwise a valid record with the crossover action and the strength formula's value for it, so BUY/SELL have strength at least 0.7 |
| Macd15Min.OversizedPeriodsNeverSignal | signals/macd_15min.py:200-205 | when slow + signal + 10 exceeds 200 the generator never produces a record |
| Macd15Min.Generator.constructor | signals/macd_15min.py:25-51 | the given periods are both the defaults and the current ones |
| Macd15Min.Generator.LoadCoinParameters | signals/macd_15min.py:161-183 | the current periods become LoadParams of the defaults |
| Macd15Min.Generator.GenerateSignal | signals/macd_15min.py:185-250 | loads the coin's periods, then returns GenerateSpec with them |
| Range24HLow.SeqMin | signals/range_24h_low.py:203 | the 24 h low is an element of the lows and no greater than any of them |
| Range24HLow.BuyRange | signals/range_24h_low.py:131-147 | [low(1 + off/100), low(1 + off/100 + tol/100)]; low bound <= high bound when low >= 0 and tol >= 0 |
| Range24HLow.Strength | signals/range_24h_low.py:149-174 | 0.85 for a zero-width range; otherwise within [0.7, 1], 1 at the low bound and 0.7 at the high bound |
| Range24HLow.StrengthLinearInBand | signals/range_24h_low.py:167-174 | inside the band the strength is 1 - 0.3 * position_in_range |
| Range24HLow.StrengthDecreasesInBand | signals/range_24h_low.py:167-174 | a price nearer the low bound never gives a weaker signal |
| Range24HLow.GenerateSignal | signals/range_24h_low.py:176-262 | fewer than 24 candles or no price gives None; otherwise BUY iff the price is inside the inclusive range, with the band strength, and HOLD with strength 0 otherwise |
| Range24HLow.NeverSells | signals/range_24h_low.py:210-220 | the generator never emits SELL |
| Range24HLow.PriceAtLowBuys | signals/range_24h_low.py:210-220 | with the default offset -1 % and tolerance 2 %, a price at the 24 h low (non-negative) is a BUY |
| Scalping1Min.SumConstant | signals/scalping_1min.py:138-144 | the sum of constant volumes is their count times the value |
| Scalping1Min.VolumeSpike | signals/scalping_1min.py:128-144 | no spike with fewer than 20 samples; otherwise a spike iff the last volume exceeds the mean of the last 20 times the multiplier |
| Scalping1Min.SteadyVolumeNoSpike | signals/scalping_1min.py:128-144 | a constant volume series never spikes for a multiplier of at least 1 |
| Scalping1Min.Decide | signals/scalping_1min.py:220-238 | the two crosses exclude each other; BUY iff a bullish cross, an RSI strictly inside the band and a volume spike; SELL symmetrically |
| Scalping1Min.Strength | signals/scalping_1min.py:146-185 | HOLD gives 0; otherwise 0.6 plus the confirmations, within [0.6, 1], exactly 0.6 without any, 1 with all |
| Scalping1Min.GenerateSignal | signals/scalping_1min.py:187-274 | fewer than max(slow_ema, 20) + 5 candles gives None; otherwise a valid record with the decided action and the confluence strength of its RSI, EMA divergence and volume spike; a BUY or SELL needs a volume spike and has strength >= 0.6 |
| Scalping1Min.NoSpikeNoTrade | signals/scalping_1min.py:227-238 | without a volume spike the result is HOLD with strength 0 |
| Scalping1Min.OversizedSlowEmaNeverSignals | signals/scalping_1min.py:200-202 | a slow EMA period above 95 can never be served by the 100-candle request, so no record is produced |
| BacktestSimulation.Close | panel_modules/pages/backtest_page.py:1031-1042 | the trade keeps the entry, takes the exit from the SELL, pnl_pct = (exit - entry)/entry * 100 and profit_usd = pnl_pct/100 * size |
| BacktestSimulation.ProfitSign | panel_modules/pages/backtest_page.py:1034-1035 | for a positive entry price and size a trade wins iff the exit price exceeds the entry |
| BacktestSimulation.Step | panel_modules/pages/backtest_page.py:1023-1046 | a BUY opens only when flat, a SELL closes only when open, anything else changes nothing |
| BacktestSimulation.SimulateTrades | panel_modules/pages/backtest_page.py:1017-1048 | the loop's trades are those of the step-by-step simulation |
| BacktestSimulation.Count | panel_modules/pages/backtest_page.py:1022-1048 | an action count never exceeds the number of signals |
| BacktestSimulation.TradeBounds | panel_modules/pages/backtest_page.py:1022-1048 | trades (plus a still-open position) never outnumber BUY signals, and trades never outnumber SELL signals |
| BacktestSimulation.TrailingBuyNoTrade | panel_modules/pages/backtest_page.py:1022-1048 | a trailing BUY adds no trade |
| BacktestSimulation.PairedExtend | panel_modules/pages/backtest_page.py:1022-1048 | the pairing of a prefix stays valid in the extended signal list |
| BacktestSimulation.PairingFaithful | panel_modules/pages/backtest_page.py:1022-1048 | every trade pairs a BUY with a later SELL; consecutive trades do not overlap; an open position comes from a BUY after the last trade |
| BacktestSimulation.AlternatingSimulation | panel_modules/pages/backtest_page.py:1022-1048 | on strictly alternating BUY, SELL, ... signals every pair is a trade, and a position stays open iff the count is odd |
| BacktestSimulation.WinRate | panel_modules/pages/backtest_page.py:548-552 | the win rate is wins / total * 100 (rate * total = wins * 100), a percentage in [0, 100], 100 when every trade wins |
| BacktestSimulation.Average | panel_modules/pages/backtest_page.py:551-564 | the average times the count is the total |
| BacktestSimulation.Summarize | panel_modules/pages/backtest_page.py:544-566 | no trades gives None. Otherwise the coin and the parameters pass through, wins (profit > 0) and losses (profit <= 0) are counted and partition the trades, the win rate is WinRate(wins, trades) in [0, 100], and total and average profit agree with the trades |
| BacktestSignals.RangeSignalLoop | panel_modules/pages/backtest_page.py:654-687 | the loop's signals are those of the step-by-step range state machine |
| BacktestSignals.RangeAlternates | panel_modules/pages/backtest_page.py:654-687 | range signals alternate BUY, SELL, ... starting with BUY; the loop is in range iff an odd number were emitted; BUY prices lie in the band and SELL prices outside |
| BacktestSignals.Lows | panel_modules/pages/backtest_page.py:645-652 | one low per candle |
| BacktestSignals.RangeBacktestPairsEverySignal | panel_modules/pages/backtest_page.py:640-719 | in the range backtest every BUY finds its SELL: trades = signals / 2 |
| BacktestSignals.RunRangeBacktest | panel_modules/pages/backtest_page.py:640-719 | the result is the range backtest's summarised simulation (None without candles or trades) |
| BacktestSignals.PairwiseSignalLoop | panel_modules/pages/backtest_page.py:742-756 | the loop over consecutive rows emits exactly the signals of the pairwise rule |
| BacktestSignals.EmittedNeverHold | panel_modules/pages/backtest_page.py:742-756 | if the rule never emits HOLD, no emitted signal is HOLD |
| BacktestSignals.SmaEmit | panel_modules/pages/backtest_page.py:742-756 | a signal needs four non-NaN SMAs; BUY iff the bullish crossover, SELL iff the bearish one, never both |
| BacktestSignals.RunSmaBacktest | panel_modules/pages/backtest_page.py:721-788 | the result is the SMA backtest's summarised simulation |
| BacktestSignals.MacdEmit | panel_modules/pages/backtest_page.py:887-909 | a signal is emitted iff both histograms exist and the crossover rule gives BUY or SELL, and it carries that action |
| BacktestSignals.RunMacdBacktest | panel_modules/pages/backtest_page.py:872-941 | the result is the MACD backtest's summarised simulation |
| BacktestSignals.CrossoverBacktestsNeverHold | panel_modules/pages/backtest_page.py:742-756 | neither the SMA nor the MACD backtest ever emits HOLD |
| Selection.FirstByKeyIsFirst | panel_modules/pages/backtest_page.py:954-958 | keep-the-first per key: every key is present, with the first element of that key |
| Selection.BestByKeyKeys | panel_modules/pages/backtest_page.py:1063-1067 | replace-when-better per key: every key is present, with an element of that key |
| Selection.BestByKeyIsBest | panel_modules/pages/backtest_page.py:1063-1067 | for an irreflexive, transitive ordering no element of a key is better than the one kept |
| Selection.FirstIsBestWhenSorted | panel_modules/pages/backtest_page.py:488 | on a list where no later element is better, keep-the-first and keep-the-best agree |
| BacktestOptimization.PrependEach | panel_modules/pages/backtest_page.py:357-384 | one combination per tail |
| BacktestOptimization.PrependLength | panel_modules/pages/backtest_page.py:357-384 | prefixing every tail with every value gives |values| * |tails| combinations |
| BacktestOptimization.CombinationCount | panel_modules/pages/backtest_page.py:236-287 | the number of combinations is the product of the parameter-list lengths |
| BacktestOptimization.PrependMembership | panel_modules/pages/backtest_page.py:357-384 | a combination is in the product iff its head is a value and its tail a tail |
| BacktestOptimization.CombinationMembership | panel_modules/pages/backtest_page.py:357-384 | a list is a combination iff it has one entry per parameter, each from its list |
| BacktestOptimization.ShippedCombinationCounts | config/backtest_settings.py:11-13 | the shipped ranges give 150 RSI, 25 SMA, 25 range, 1296 scalping and 125 MACD combinations |
| BacktestOptimization.SaveBestSelection | panel_modules/pages/backtest_page.py:954-958 | the saved best is the first result per coin |
| BacktestOptimization.DisplayBestSelection | panel_modules/pages/backtest_page.py:1063-1067 | the displayed best per coin is replaced only by a strictly more profitable result |
| BacktestOptimization.FirstPerCoinIsFirst | panel_modules/pages/backtest_page.py:954-958 | every coin is saved, with its first result in the list |
| BacktestOptimization.MaxPerCoinIsMax | panel_modules/pages/backtest_page.py:1063-1067 | every coin is displayed with one of its results, and none of its results has more profit |
| BacktestOptimization.SortedSelectionsAgree | panel_modules/pages/backtest_page.py:488 | on the profit-sorted list the saved and the displayed selections are the same, ties included |
| BacktestResultsLoading.LexTotal | utils/backtest_results_loader.py:45-50 | Python's string order is total |
| BacktestResultsLoading.LexAntisymmetric | utils/backtest_results_loader.py:45-50 | two names each at most the other are equal |
| BacktestResultsLoading.LexTransitive | utils/backtest_results_loader.py:45-50 | the string order is transitive |
| BacktestResultsLoading.LexReflexive | utils/backtest_results_loader.py:45-50 | every name is at most itself |
| BacktestResultsLoading.LexMaxIsGreatest | utils/backtest_results_loader.py:45-50 | the first of the reverse-sorted names is one of them and no smaller than any; there is one iff the list is non-empty |
| BacktestResultsLoading.LatestResultFileIsGreatest | utils/backtest_results_loader.py:31-50 | the latest file exists iff some name matches `{coin}_{signal}_*.json`, matches, and is the greatest matching name |
| BacktestResultsLoading.ParametersLookup | utils/backtest_results_loader.py:71-103 | a cached key answers from the cache unchanged. Otherwise parameters come back iff the latest file is readable and has best_parameters; they are its best_parameters and get cached under coin_signal. A failure caches nothing |
| BacktestResultsLoading.RepeatedLookupIsCached | utils/backtest_results_loader.py:84-85 | after a successful lookup the same query answers the same whatever the directory now holds |
| BacktestResultsLoading.CountCharAppend | utils/backtest_results_loader.py:131-134 | character counts add over concatenation |
| BacktestResultsLoading.Split | utils/backtest_results_loader.py:131-134 | splitting yields at least one part |
| BacktestResultsLoading.SplitJoin | utils/backtest_results_loader.py:131-134 | joining the parts gives the name back, no part contains the separator, and there is one part more than separators |
| BacktestResultsLoading.RemoveAllKeepsChar | utils/backtest_results_loader.py:131 | removing ".json" keeps every '_' |
| BacktestResultsLoading.NoCharNoCount | utils/backtest_results_loader.py:131 | a string without a character counts none of it |
| BacktestResultsLoading.ParseResultName | utils/backtest_results_loader.py:131-137 | a key exists iff the name without ".json" has at least three '_'-parts; coin and signal are parts 0 and 1 and contain no '_' |
| BacktestResultsLoading.GlobbedNamesParse | utils/backtest_results_loader.py:119-137 | every name the `*_*_*.json` glob returns passes the three-part check |
| BacktestResultsLoading.AvailableLatestIsLatest | utils/backtest_results_loader.py:140-141 | under the intended reading each key is answered by its latest file |
| BacktestResultsLoading.FirstListedWins | utils/backtest_results_loader.py:140-149 | when an older file of a key is listed before a newer one, the code keeps the older one while the intended result differs |
| BacktestResultsLoading.BacktestResultsLoader.constructor | utils/backtest_results_loader.py:20-29 | the given directory and an empty cache |
| BacktestResultsLoading.BacktestResultsLoader.GetParameters | utils/backtest_results_loader.py:71-103 | the answer and the new cache are ParametersLookup of the old cache |
| BacktestResultsLoading.BacktestResultsLoader.ClearCache | utils/backtest_results_loader.py:105-108 | the cache is empty afterwards |
| BacktestResultsLoading.BacktestResultsLoader.GetAllAvailableResults | utils/backtest_results_loader.py:110-154 | the loop keeps the first listed readable result per coin_signal key |
| BacktestResultsLoading.LoaderSlot.constructor | utils/backtest_results_loader.py:158 | no loader yet |
| BacktestResultsLoading.LoaderSlot.GetBacktestLoader | utils/backtest_results_loader.py:161-171 | the first call creates a loader for "results" with an empty cache; every later call returns the same instance |
| DebugSettings.Lookup | config/debug_settings.py:17-28 | the stored value, or the default when the key is absent |
| DebugSettings.Update | config/debug_settings.py:31-42 | true iff the key exists; then only that key changes, to the value; an unknown key changes nothing; the keys never change |
| DebugSettings.ReadAfterWrite | config/debug_settings.py:28-41 | reading a key after writing it gives the written value for a known key and the default for an unknown one |
| DebugSettings.UpdatesKeepKeys | config/debug_settings.py:31-42 | no sequence of writes adds or removes a key |
| DebugSettings.DebugStore.constructor | config/debug_settings.py:6-14 | the shipped dictionary, position_check_debug on |
| DebugSettings.DebugStore.GetDebugSetting | config/debug_settings.py:17-28 | the stored value, or the default (false) for an absent key |
| DebugSettings.DebugStore.SetDebugSetting | config/debug_settings.py:31-42 | the result and the new map are Update of the old map |
| DebugSettings.DebugStore.GetAllDebugSettings | config/debug_settings.py:45-52 | a copy of the map, which later writes to the store do not affect |

## Left out

- Threads, sleeps and the monitoring and signal loops (`start_monitoring`'s thread, `_monitor_loop`, `_signal_loop`). One tick or one cycle is a method call, and the loops are repeated calls.
- JSON persistence of position states and of backtest results. A save is a counter, and a results directory is a listing plus the readable files' contents. Paths are base names joined to the directory.
- The exchange SDK, and the Binance and CoinGecko HTTP requests with their rate limiting. Their answers are inputs. A candle request is modelled by how many rows it returns, min(available, limit); the exchange's own 1000-row cap is not modelled. `get_historical_data` in the backtest is left out entirely.
- The pandas indicator computations (rolling SMA, EWM, RSI, MACD). They are floating-point library numerics, and their last values are inputs.
- Floating point in general. Prices, percentages and strengths are exact reals, so a NaN is only modelled where the code tests for it.
- Parameter values that make pandas raise, such as non-positive periods. The model accepts every integer.
- The tkinter UI, logging and console output, and the configuration modules. Configuration values appear as constants: shipped settings, intervals, flags and parameter ranges.
- The generators rsi_1min, rsi_5min, rsi_4h and range_7days_low. Their files are not part of this model, so they appear only as registration branches with their names.
- The RSI and scalping backtest loops. Only their result summary and the shared trade simulation are modelled.
- The optimisation outer loop over coins and combinations, including the skip of coins with too little history.
- Sorting the optimisation results by profit. The sorted order appears as a precondition of `BacktestOptimization.SortedSelectionsAgree`.
- Writing the best results to disk.
- `get_position_status`: a read-only dictionary lookup.
- The SMA generator's metadata dictionary: free-form logging data.
- Trailing-stop logic. The flag is stored, but no decision reads it.
- Glob metacharacters inside coin or signal names. Such names would make `glob` match differently.
- String keys that collide because a coin or signal name contains '_'. The model keeps the same concatenated key the code uses.
- BacktestSimulation.PnlPct: a zero entry price, which would raise ZeroDivisionError in the code, is given a pnl of 0, because the exchange never quotes a zero price.
- OrderManagement.Round5: states the Python rounding of an exact real (the nearest five-decimal multiple, ties to even). The binary floating-point representation Python rounds is not modelled.
- The hand-off of best_parameters from the results loader to the RSI and MACD generators. The loader keeps the JSON numbers as `real`, while `Rsi1H.LoadParams` and `Macd15Min.LoadParams` take integer periods and thresholds. The code passes the parsed JSON values on unchanged, so a non-integral value in a file is not modelled on the generator side.
- CandleFeed.Fetched: the limit is a request parameter; how the exchange chooses which rows to return is not modelled.

## Findings

| source | as written | input that shows it | evidently intended | confidence | as-written member | corrected member |
|---|---|---|---|---|---|---|
| utils/backtest_results_loader.py:140-141 | `get_all_available_results` keeps the first file seen per coin_signal key in the listing order, although its comment says the latest result is kept | a listing with `BTC_rsi-1h_20240101_120000.json` before `BTC_rsi-1h_20240201_120000.json` (both readable with best_parameters, both under the key `BTC_rsi-1h`) yields the older file | the lexicographically latest file per key, which is what `_find_latest_result_file` picks for `get_parameters` | not executed | BacktestResultsLoading.FirstListedWins | BacktestResultsLoading.AvailableLatestIsLatest |
