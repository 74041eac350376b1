/**
  The orchestrator (core/trading_bot.py): which signal generators are registered, which of them are
  due on a scheduling cycle, how their signals are collected per coin and handed to the order
  manager, and the start / stop / emergency-stop flags.

  A generator is identified by its name, the key of its enable flag and of its check interval.
  What a generator answers for a coin is an input `reply`; the generators themselves are modelled
  in their own modules. The gateway answers for the k-th `process_signal` call of a cycle are
  `gateway(k)`. The clock is `now` (seconds) and `today` (a day number).
*/
module TradingBotCore {
  import opened Wrappers
  import opened Signals
  import opened OrderManagement
  import opened PositionManagement

  /** The generators the configuration knows, by the name they carry in the settings. */
  datatype GeneratorId =
    | Rsi1Min | Rsi5Min | Rsi1H | Rsi4H | Sma5Min | Range7DaysLow | Range24HLow | Macd15Min | Scalping1Min

  function Name(g: GeneratorId): string {
    match g
    case Rsi1Min => "rsi_1min"
    case Rsi5Min => "rsi_5min"
    case Rsi1H => "rsi_1h"
    case Rsi4H => "rsi_4h"
    case Sma5Min => "sma_5min"
    case Range7DaysLow => "range_7days_low"
    case Range24HLow => "range_24h_low"
    case Macd15Min => "macd_15min"
    case Scalping1Min => "scalping_1min"
  }

  /** The generators `_init_signal_generators` can register, in the order of its branches. */
  const Branches: seq<GeneratorId> :=
    [Rsi1Min, Rsi5Min, Rsi1H, Rsi4H, Sma5Min, Range7DaysLow, Range24HLow, Macd15Min]

  /** Every branch finds its flag in `enabled` (each generator has an entry in the signal settings). */
  predicate HasAllFlags(enabled: map<GeneratorId, bool>) {
    forall b :: b in Branches ==> b in enabled
  }

  /** scalping_1min is not among the branches. */
  lemma ScalpingHasNoBranch()
    ensures Scalping1Min !in Branches
  {
  }

  /** The shipped enable flags (config/signal_settings.py). */
  const ShippedEnabled: map<GeneratorId, bool> := map[
    Rsi5Min := true, Rsi1Min := true, Rsi1H := true, Rsi4H := true, Sma5Min := true,
    Range7DaysLow := false, Range24HLow := false, Scalping1Min := true, Macd15Min := false]

  /** The shipped check intervals in seconds (config/system_settings.py); scalping_1min has none. */
  const ShippedIntervals: map<GeneratorId, int> := map[
    Rsi1Min := 60, Rsi5Min := 300, Rsi1H := 3600, Rsi4H := 14400, Sma5Min := 300,
    Range7DaysLow := 3600, Range24HLow := 1800, Macd15Min := 900]

  const DefaultInterval: int := 60

  /** `intervals.get(name, 60)` */
  function IntervalFor(intervals: map<GeneratorId, int>, g: GeneratorId): int {
    Get(intervals, g).GetOr(DefaultInterval)
  }

  /** One branch of `_init_signal_generators`: appends the generator when its flag is set. */
  function Register(gens: seq<GeneratorId>, enabled: map<GeneratorId, bool>, g: GeneratorId): (r: seq<GeneratorId>)
    requires g in enabled
    ensures forall x :: x in r <==> x in gens || (x == g && enabled[g])
    ensures Distinct(gens) && g !in gens ==> Distinct(r)
  {
    if enabled[g] then gens + [g] else gens
  }

  /**
    The branches taken one after the other, each appending to what the earlier ones registered.
    `|enabled|` in the measure never decreases; it only keeps the verifier from unfolding a call
    on the literal branch list when the flags are unknown.
  */
  function RegisterAll(gens: seq<GeneratorId>, enabled: map<GeneratorId, bool>, branches: seq<GeneratorId>): seq<GeneratorId>
    requires forall b :: b in branches ==> b in enabled
    decreases |branches|, |enabled|
  {
    if branches == [] then gens else RegisterAll(Register(gens, enabled, branches[0]), enabled, branches[1..])
  }

  lemma {:induction false} RegisterAllMembership(gens: seq<GeneratorId>, enabled: map<GeneratorId, bool>, branches: seq<GeneratorId>)
    requires forall b :: b in branches ==> b in enabled
    ensures forall x :: x in RegisterAll(gens, enabled, branches) <==> x in gens || (x in branches && enabled[x])
    decreases |branches|
  {
    if branches != [] {
      RegisterAllMembership(Register(gens, enabled, branches[0]), enabled, branches[1..]);
      assert branches == [branches[0]] + branches[1..];
    }
  }

  lemma {:induction false} RegisterAllDistinct(gens: seq<GeneratorId>, enabled: map<GeneratorId, bool>, branches: seq<GeneratorId>)
    requires forall b :: b in branches ==> b in enabled
    requires Distinct(gens) && Distinct(branches)
    requires forall b :: b in branches ==> b !in gens
    ensures Distinct(RegisterAll(gens, enabled, branches))
    decreases |branches|
  {
    if branches != [] {
      var rest := branches[1..];
      assert Distinct(rest) by {
        forall i, j | 0 <= i < j < |rest| ensures rest[i] != rest[j] {
          assert rest[i] == branches[i + 1] && rest[j] == branches[j + 1];
        }
      }
      forall b | b in rest ensures b !in Register(gens, enabled, branches[0]) {
        var i :| 0 <= i < |rest| && rest[i] == b;
        assert branches[i + 1] == b;
      }
      RegisterAllDistinct(Register(gens, enabled, branches[0]), enabled, rest);
    }
  }

  /**
    `_init_signal_generators`: the enabled branches, in branch order. A generator without a branch
    (scalping_1min) is never registered, whatever its flag says.
  */
  function InitSignalGenerators(enabled: map<GeneratorId, bool>): seq<GeneratorId>
    requires HasAllFlags(enabled)
  {
    RegisterAll([], enabled, Branches)
  }

  /** Exactly the branches whose flag is set are registered; scalping_1min, which has no branch, never is. */
  lemma InitSignalGeneratorsMembership(enabled: map<GeneratorId, bool>)
    requires HasAllFlags(enabled)
    ensures forall g :: g in InitSignalGenerators(enabled) <==> g in Branches && enabled[g]
    ensures Scalping1Min !in InitSignalGenerators(enabled)
  {
    var branches := Branches;
    RegisterAllMembership([], enabled, branches);
    forall g ensures g in InitSignalGenerators(enabled) <==> g in branches && enabled[g] {
    }
    ScalpingHasNoBranch();
  }

  /** No generator is registered twice. */
  lemma InitSignalGeneratorsDistinct(enabled: map<GeneratorId, bool>)
    requires HasAllFlags(enabled)
    ensures Distinct(InitSignalGenerators(enabled))
  {
    assert Distinct(Branches);
    RegisterAllDistinct([], enabled, Branches);
  }

  lemma {:induction false} RegisterAllConcat(gens: seq<GeneratorId>, enabled: map<GeneratorId, bool>, a: seq<GeneratorId>, b: seq<GeneratorId>)
    requires forall x :: x in a + b ==> x in enabled
    ensures RegisterAll(gens, enabled, a + b) == RegisterAll(RegisterAll(gens, enabled, a), enabled, b)
    decreases |a|
  {
    if a == [] {
      assert a + b == b;
    } else {
      assert (a + b)[0] == a[0] && (a + b)[1..] == a[1..] + b;
      RegisterAllConcat(Register(gens, enabled, a[0]), enabled, a[1..], b);
    }
  }

  /** Branches whose flags are all set are all registered, in order. */
  lemma {:induction false} RegisterAllEnabled(gens: seq<GeneratorId>, enabled: map<GeneratorId, bool>, branches: seq<GeneratorId>)
    requires forall x :: x in branches ==> x in enabled && enabled[x]
    ensures RegisterAll(gens, enabled, branches) == gens + branches
    decreases |branches|
  {
    if branches != [] {
      RegisterAllEnabled(gens + [branches[0]], enabled, branches[1..]);
      assert gens + [branches[0]] + branches[1..] == gens + branches;
    }
  }

  /** Branches whose flags are all clear register nothing. */
  lemma {:induction false} RegisterAllDisabled(gens: seq<GeneratorId>, enabled: map<GeneratorId, bool>, branches: seq<GeneratorId>)
    requires forall x :: x in branches ==> x in enabled && !enabled[x]
    ensures RegisterAll(gens, enabled, branches) == gens
    decreases |branches|
  {
    if branches != [] {
      RegisterAllDisabled(gens, enabled, branches[1..]);
    }
  }

  const ShippedOn: seq<GeneratorId> := [Rsi1Min, Rsi5Min, Rsi1H, Rsi4H, Sma5Min]
  const ShippedOff: seq<GeneratorId> := [Range7DaysLow, Range24HLow, Macd15Min]

  lemma ShippedSplit(e: map<GeneratorId, bool>)
    requires e == ShippedEnabled
    ensures RegisterAll([], e, Branches) == RegisterAll(RegisterAll([], e, ShippedOn), e, ShippedOff)
  {
    assert Branches == ShippedOn + ShippedOff;
    RegisterAllConcat([], e, ShippedOn, ShippedOff);
  }

  lemma ShippedOnRegistered(e: map<GeneratorId, bool>)
    requires e == ShippedEnabled
    ensures RegisterAll([], e, ShippedOn) == ShippedOn
  {
    RegisterAllEnabled([], e, ShippedOn);
    assert [] + ShippedOn == ShippedOn;
  }

  lemma ShippedOffSkipped(e: map<GeneratorId, bool>)
    requires e == ShippedEnabled
    ensures RegisterAll(ShippedOn, e, ShippedOff) == ShippedOn
  {
    RegisterAllDisabled(ShippedOn, e, ShippedOff);
  }

  /** With the shipped flags five generators are registered. */
  lemma ShippedGenerators()
    ensures InitSignalGenerators(ShippedEnabled) == [Rsi1Min, Rsi5Min, Rsi1H, Rsi4H, Sma5Min]
  {
    ShippedSplit(ShippedEnabled);
    ShippedOnRegistered(ShippedEnabled);
    ShippedOffSkipped(ShippedEnabled);
  }

  /** The due test of one generator. */
  function DueIn(last: map<GeneratorId, int>, intervals: map<GeneratorId, int>, now: int): GeneratorId -> bool {
    g => g in last && now - last[g] >= IntervalFor(intervals, g)
  }

  /**
    The selection loop of `_check_signals`: the due generators in registration order, and the
    check times, where each selected generator is stamped with `now` at once.
  */
  function SelectDue(last: map<GeneratorId, int>, gens: seq<GeneratorId>, intervals: map<GeneratorId, int>, now: int): (r: (seq<GeneratorId>, map<GeneratorId, int>))
    requires forall g :: g in gens ==> g in last
    ensures r.1.Keys == last.Keys
    ensures forall k :: k in last && k !in gens ==> r.1[k] == last[k]
    ensures forall g :: g in r.0 ==> g in gens
    decreases |gens|
  {
    if gens == [] then ([], last)
    else
      var n := |gens| - 1;
      var g := gens[n];
      var prev := SelectDue(last, gens[..n], intervals, now);
      if now - prev.1[g] >= IntervalFor(intervals, g) then (prev.0 + [g], prev.1[g := now]) else prev
  }

  lemma DistinctPrefix<T>(s: seq<T>)
    requires s != [] && Distinct(s)
    ensures Distinct(s[..|s| - 1]) && s[|s| - 1] !in s[..|s| - 1]
  {
    var n := |s| - 1;
    forall i | 0 <= i < n ensures s[..n][i] != s[n] {
      assert s[..n][i] == s[i];
    }
  }

  /**
    With distinct registrations, the generators selected are exactly the due ones in registration
    order, and each selected one is stamped with `now` while the others keep their time.
  */
  lemma {:induction false} SelectDueIsFilter(last: map<GeneratorId, int>, gens: seq<GeneratorId>, intervals: map<GeneratorId, int>, now: int)
    requires forall g :: g in gens ==> g in last
    requires Distinct(gens)
    ensures SelectDue(last, gens, intervals, now).0 == Filter(gens, DueIn(last, intervals, now))
    ensures forall g :: g in gens ==>
      SelectDue(last, gens, intervals, now).1[g] == (if now - last[g] >= IntervalFor(intervals, g) then now else last[g])
    decreases |gens|
  {
    if gens != [] {
      var n := |gens| - 1;
      var g := gens[n];
      var p := DueIn(last, intervals, now);
      var prev := SelectDue(last, gens[..n], intervals, now);
      DistinctPrefix(gens);
      SelectDueIsFilter(last, gens[..n], intervals, now);
      assert prev.1[g] == last[g];
      assert gens == gens[..n] + [g];
      FilterAppend(gens[..n], [g], p);
      assert Filter([g], p) == if p(g) then [g] else [] by {
        assert [g][1..] == [];
      }
      var r := SelectDue(last, gens, intervals, now);
      assert r == if now - prev.1[g] >= IntervalFor(intervals, g) then (prev.0 + [g], prev.1[g := now]) else prev;
      forall h | h in gens
        ensures r.1[h] == (if now - last[h] >= IntervalFor(intervals, h) then now else last[h])
      {
        if h != g {
          assert h in gens[..n];
        }
      }
    }
  }

  /** `last_check_times` as the constructor builds it: every registered generator, last checked at time 0. */
  function InitialCheckTimes(gens: seq<GeneratorId>): (m: map<GeneratorId, int>)
    ensures forall g :: g in m <==> g in gens
    ensures forall g :: g in m ==> m[g] == 0
  {
    map g | g in gens :: 0
  }

  /** On the first cycle every check time is 0, so every generator whose interval has passed since 0 is due. */
  lemma FirstCycleAllDue(gens: seq<GeneratorId>, intervals: map<GeneratorId, int>, now: int)
    requires Distinct(gens)
    requires forall g :: g in gens ==> now >= IntervalFor(intervals, g)
    ensures SelectDue(InitialCheckTimes(gens), gens, intervals, now).0 == gens
  {
    var last := InitialCheckTimes(gens);
    SelectDueIsFilter(last, gens, intervals, now);
    FilterAll(gens, DueIn(last, intervals, now));
  }

  lemma {:induction false} FilterAll<T>(s: seq<T>, p: T -> bool)
    requires forall i :: 0 <= i < |s| ==> p(s[i])
    ensures Filter(s, p) == s
  {
    if s != [] {
      FilterAll(s[1..], p);
    }
  }

  /** What a generator's `generate_signal` did for one coin. */
  datatype GenReply = Raised | NoSignal | Produced(signal: Signal)

  /**
    `_check_coin_signals`' collection loop: the non-HOLD signals of the given generators for one
    coin, in generator order. A generator that raised or returned nothing contributes nothing and
    does not affect the others.
  */
  function CollectSignals(coin: string, gens: seq<GeneratorId>, reply: (GeneratorId, string) -> GenReply): (r: seq<Signal>)
    ensures |r| <= |gens|
    decreases |gens|
  {
    if gens == [] then []
    else
      var n := |gens| - 1;
      var rest := CollectSignals(coin, gens[..n], reply);
      match reply(gens[n], coin)
      case Produced(s) => if s.action != Hold then rest + [s] else rest
      case _ => rest
  }

  /** A signal is collected exactly when some due generator produced it and it is not a HOLD. */
  lemma {:induction false} CollectSignalsMembership(coin: string, gens: seq<GeneratorId>, reply: (GeneratorId, string) -> GenReply)
    ensures forall s :: s in CollectSignals(coin, gens, reply) <==>
      exists j :: 0 <= j < |gens| && reply(gens[j], coin) == Produced(s) && s.action != Hold
    decreases |gens|
  {
    if gens != [] {
      var n := |gens| - 1;
      CollectSignalsMembership(coin, gens[..n], reply);
      assert forall j :: 0 <= j < n ==> gens[..n][j] == gens[j];
    }
  }

  /** The signals of one cycle: coin by coin in list order. */
  function AllSignals(coins: seq<string>, gens: seq<GeneratorId>, reply: (GeneratorId, string) -> GenReply): seq<Signal>
    decreases |coins|
  {
    if coins == [] then []
    else AllSignals(coins[..|coins| - 1], gens, reply) + CollectSignals(coins[|coins| - 1], gens, reply)
  }

  /** One more coin adds that coin's signals at the end. */
  lemma AllSignalsStep(coins: seq<string>, c: nat, gens: seq<GeneratorId>, reply: (GeneratorId, string) -> GenReply)
    requires c < |coins|
    ensures AllSignals(coins[..c + 1], gens, reply) == AllSignals(coins[..c], gens, reply) + CollectSignals(coins[c], gens, reply)
  {
    assert coins[..c + 1][..c] == coins[..c];
  }

  /** With no generator due, a cycle collects nothing. */
  lemma {:induction false} NothingDueNothingCollected(coins: seq<string>, reply: (GeneratorId, string) -> GenReply)
    ensures AllSignals(coins, [], reply) == []
    decreases |coins|
  {
    if coins != [] {
      NothingDueNothingCollected(coins[..|coins| - 1], reply);
    }
  }

  /** The counters after a run of calls, the i-th of them made through `step` as call number k + i. */
  function Replay(step: (Counters, Signal, nat) -> Counters, c: Counters, sigs: seq<Signal>, k: nat): Counters
    decreases |sigs|
  {
    if sigs == [] then c
    else
      var n := |sigs| - 1;
      step(Replay(step, c, sigs[..n], k), sigs[n], k + n)
  }

  /** Replaying two runs one after the other is replaying their concatenation. */
  lemma {:induction false} ReplayAppend(step: (Counters, Signal, nat) -> Counters, c: Counters, a: seq<Signal>, b: seq<Signal>, k: nat)
    ensures Replay(step, c, a + b, k) == Replay(step, Replay(step, c, a, k), b, k + |a|)
    decreases |b|
  {
    if b == [] {
      assert a + b == a;
    } else {
      var n := |b| - 1;
      assert (a + b)[..|a + b| - 1] == a + b[..n];
      assert (a + b)[|a + b| - 1] == b[n];
      ReplayAppend(step, c, a, b[..n], k);
    }
  }

  /** One `process_signal` call, the i-th call seeing `gateway(i)`. */
  function ProcessStep(settings: Settings, gateway: nat -> GatewayReplies, now: int, today: int): (Counters, Signal, nat) -> Counters {
    (c: Counters, s: Signal, i: nat) => ProcessSpec(settings, c, s, gateway(i), now, today).1
  }

  /** The order manager's counters after `process_signal` on each signal in turn, the k-th call seeing `gateway(k)`. */
  function ProcessAll(settings: Settings, c: Counters, sigs: seq<Signal>, gateway: nat -> GatewayReplies, k: nat, now: int, today: int): Counters {
    Replay(ProcessStep(settings, gateway, now, today), c, sigs, k)
  }

  lemma ProcessAllStep(settings: Settings, c: Counters, sigs: seq<Signal>, gateway: nat -> GatewayReplies, k: nat, now: int, today: int, j: nat)
    requires j < |sigs|
    ensures ProcessAll(settings, c, sigs[..j + 1], gateway, k, now, today) ==
            ProcessSpec(settings, ProcessAll(settings, c, sigs[..j], gateway, k, now, today), sigs[j], gateway(k + j), now, today).1
  {
    assert sigs[..j + 1][..j] == sigs[..j];
  }

  lemma ProcessAllAppend(settings: Settings, c: Counters, a: seq<Signal>, b: seq<Signal>, gateway: nat -> GatewayReplies, k: nat, now: int, today: int)
    ensures ProcessAll(settings, c, a + b, gateway, k, now, today) ==
            ProcessAll(settings, ProcessAll(settings, c, a, gateway, k, now, today), b, gateway, k + |a|, now, today)
  {
    ReplayAppend(ProcessStep(settings, gateway, now, today), c, a, b, k);
  }

  /** The counters after one coin's (or one cycle's) signals: processed in turn when orders are executed, untouched otherwise. */
  function Dispatch(execute: bool, settings: Settings, c: Counters, sigs: seq<Signal>, gateway: nat -> GatewayReplies, k: nat, now: int, today: int): Counters {
    if execute then ProcessAll(settings, c, sigs, gateway, k, now, today) else c
  }

  lemma DispatchAppend(execute: bool, settings: Settings, c: Counters, a: seq<Signal>, b: seq<Signal>, gateway: nat -> GatewayReplies, k: nat, now: int, today: int)
    ensures Dispatch(execute, settings, c, a + b, gateway, k, now, today) ==
            Dispatch(execute, settings, Dispatch(execute, settings, c, a, gateway, k, now, today), b, gateway, k + |a|, now, today)
  {
    if execute {
      ProcessAllAppend(settings, c, a, b, gateway, k, now, today);
    }
  }

  /**
    The generator list of the constructor and its check times: every registered generator, none
    twice, starts with last check time 0, so each one is due at its first check.
  */
  method InitSchedule(enabled: map<GeneratorId, bool>) returns (gens: seq<GeneratorId>, times: map<GeneratorId, int>)
    requires HasAllFlags(enabled)
    ensures gens == InitSignalGenerators(enabled) && Distinct(gens)
    ensures times == InitialCheckTimes(gens)
    ensures forall g :: g in gens ==> g in times && times[g] == 0
  {
    gens := InitSignalGenerators(enabled);
    InitSignalGeneratorsDistinct(enabled);
    times := InitialCheckTimes(gens);
  }

  /** `get_status` */
  datatype BotStatus = BotStatus(
    running: bool,
    executeOrders: bool,
    monitoredCoins: nat,
    signalGenerators: nat,
    orderManager: OrderStats,
    positionManager: PositionStats)

  class TradingBot {
    const executeOrders: bool
    const generators: seq<GeneratorId>
    const intervals: map<GeneratorId, int>
    const monitoredCoins: seq<string>
    const orderManager: OrderManager
    const positionManager: PositionManager
    var running: bool
    var lastCheckTimes: map<GeneratorId, int>

    /** Every registered generator has a check time, and no name is registered twice. */
    ghost predicate Valid()
      reads this
    {
      Distinct(generators) && forall g :: g in generators ==> g in lastCheckTimes
    }

    constructor(executeOrders: bool, enabled: map<GeneratorId, bool>, intervals: map<GeneratorId, int>, monitoredCoins: seq<string>,
                settings: Settings, loadedStates: map<string, PositionState>, today: int)
      requires HasAllFlags(enabled)
      ensures Valid() && fresh(orderManager) && fresh(positionManager)
      ensures this.executeOrders == executeOrders && this.intervals == intervals && this.monitoredCoins == monitoredCoins
      ensures generators == InitSignalGenerators(enabled)
      ensures lastCheckTimes == InitialCheckTimes(generators)
      ensures !running
      ensures orderManager.settings == settings && orderManager.State() == Counters(map[], map[], 0, today) && orderManager.Valid()
      ensures positionManager.positionStates == loadedStates && positionManager.saves == 0 && !positionManager.monitoring
      ensures positionManager.stopLossPercent == settings.stopLossPercent
      ensures positionManager.takeProfitPercent == settings.takeProfitPercent
    {
      var gens, times := InitSchedule(enabled);
      this.executeOrders := executeOrders;
      running := false;
      generators := gens;
      lastCheckTimes := times;
      orderManager := new OrderManager(settings, today);
      positionManager := new PositionManager(settings.stopLossPercent, settings.takeProfitPercent, loadedStates);
      this.intervals := intervals;
      this.monitoredCoins := monitoredCoins;
    }

    /**
      `_check_signals`: selects and stamps the due generators, then checks every monitored coin with
      them. Returns the generators that ran and the signals collected; with execution enabled every
      collected signal went to `process_signal`, in order, and otherwise the order manager is untouched.
    */
    method CheckSignals(now: int, today: int, reply: (GeneratorId, string) -> GenReply, gateway: nat -> GatewayReplies)
      returns (toRun: seq<GeneratorId>, collected: seq<Signal>)
      requires Valid()
      modifies this, orderManager
      ensures Valid() && running == old(running)
      ensures (toRun, lastCheckTimes) == SelectDue(old(lastCheckTimes), generators, intervals, now)
      ensures toRun == Filter(generators, DueIn(old(lastCheckTimes), intervals, now))
      ensures collected == AllSignals(monitoredCoins, toRun, reply)
      ensures orderManager.State() ==
        Dispatch(executeOrders, orderManager.settings, old(orderManager.State()), collected, gateway, 0, now, today)
      ensures toRun == [] ==> collected == [] && orderManager.State() == old(orderManager.State())
      ensures old(orderManager.Valid()) ==> orderManager.Valid()
    {
      toRun := StampDueGenerators(now);
      collected := [];
      if toRun == [] {
        NothingDueNothingCollected(monitoredCoins, reply);
        return;
      }
      collected := CheckAllCoins(toRun, reply, gateway, now, today);
    }

    /** The first half of `_check_signals`: every due generator is selected and its check time set to `now`. */
    method StampDueGenerators(now: int) returns (toRun: seq<GeneratorId>)
      requires Valid()
      modifies this
      ensures Valid() && running == old(running)
      ensures (toRun, lastCheckTimes) == SelectDue(old(lastCheckTimes), generators, intervals, now)
      ensures toRun == Filter(generators, DueIn(old(lastCheckTimes), intervals, now))
    {
      toRun := [];
      var i := 0;
      while i < |generators|
        invariant 0 <= i <= |generators|
        invariant (toRun, lastCheckTimes) == SelectDue(old(lastCheckTimes), generators[..i], intervals, now)
        invariant running == old(running)
      {
        assert generators[..i + 1][..i] == generators[..i];
        var g := generators[i];
        var interval := IntervalFor(intervals, g);
        var lastCheck := lastCheckTimes[g];
        if now - lastCheck >= interval {
          toRun := toRun + [g];
          lastCheckTimes := lastCheckTimes[g := now];
        }
        i := i + 1;
      }
      assert generators[..i] == generators;
      SelectDueIsFilter(old(lastCheckTimes), generators, intervals, now);
    }

    /** The second half of `_check_signals`: each monitored coin in turn goes through `_check_coin_signals`. */
    method CheckAllCoins(toRun: seq<GeneratorId>, reply: (GeneratorId, string) -> GenReply, gateway: nat -> GatewayReplies,
                         now: int, today: int) returns (collected: seq<Signal>)
      modifies orderManager
      ensures collected == AllSignals(monitoredCoins, toRun, reply)
      ensures orderManager.State() ==
        Dispatch(executeOrders, orderManager.settings, old(orderManager.State()), collected, gateway, 0, now, today)
      ensures old(orderManager.Valid()) ==> orderManager.Valid()
    {
      collected := [];
      var c := 0;
      while c < |monitoredCoins|
        invariant 0 <= c <= |monitoredCoins|
        invariant collected == AllSignals(monitoredCoins[..c], toRun, reply)
        invariant orderManager.State() ==
          Dispatch(executeOrders, orderManager.settings, old(orderManager.State()), collected, gateway, 0, now, today)
        invariant old(orderManager.Valid()) ==> orderManager.Valid()
      {
        AllSignalsStep(monitoredCoins, c, toRun, reply);
        var sigs := CheckCoinSignals(monitoredCoins[c], toRun, reply, gateway, |collected|, now, today);
        DispatchAppend(executeOrders, orderManager.settings, old(orderManager.State()), collected, sigs, gateway, 0, now, today);
        collected := collected + sigs;
        c := c + 1;
      }
      assert monitoredCoins[..c] == monitoredCoins;
    }

    /**
      `_check_coin_signals`: collects the non-HOLD signals of the due generators for one coin and,
      when execution is enabled, passes each to `process_signal`; `k` numbers the calls of the cycle.
    */
    method CheckCoinSignals(coin: string, toRun: seq<GeneratorId>, reply: (GeneratorId, string) -> GenReply, gateway: nat -> GatewayReplies,
                            k: nat, now: int, today: int) returns (signals: seq<Signal>)
      modifies orderManager
      ensures signals == CollectSignals(coin, toRun, reply)
      ensures orderManager.State() ==
        Dispatch(executeOrders, orderManager.settings, old(orderManager.State()), signals, gateway, k, now, today)
      ensures old(orderManager.Valid()) ==> orderManager.Valid()
    {
      signals := [];
      var i := 0;
      while i < |toRun|
        invariant 0 <= i <= |toRun|
        invariant signals == CollectSignals(coin, toRun[..i], reply)
        invariant orderManager.State() == old(orderManager.State())
      {
        assert toRun[..i + 1][..i] == toRun[..i];
        var r := reply(toRun[i], coin);
        if r.Produced? && r.signal.action != Hold {
          signals := signals + [r.signal];
        }
        i := i + 1;
      }
      assert toRun[..i] == toRun;
      if executeOrders {
        var j := 0;
        while j < |signals|
          invariant 0 <= j <= |signals|
          invariant orderManager.State() == ProcessAll(orderManager.settings, old(orderManager.State()), signals[..j], gateway, k, now, today)
          invariant old(orderManager.Valid()) ==> orderManager.Valid()
        {
          ProcessAllStep(orderManager.settings, old(orderManager.State()), signals, gateway, k, now, today, j);
          var executed, _ := orderManager.ProcessSignal(signals[j], gateway(k + j), now, today);
          j := j + 1;
        }
        assert signals[..j] == signals;
      }
    }

    /** `start`: a no-op when already running; position monitoring starts only when orders are executed. */
    method Start()
      modifies this, positionManager
      ensures old(running) ==> running && positionManager.monitoring == old(positionManager.monitoring)
      ensures !old(running) ==> running && positionManager.monitoring == (old(positionManager.monitoring) || executeOrders)
      ensures lastCheckTimes == old(lastCheckTimes)
      ensures positionManager.Snapshot() == old(positionManager.Snapshot())
    {
      if running {
        return;
      }
      running := true;
      if executeOrders {
        positionManager.StartMonitoring();
      }
    }

    /** `stop`: a no-op when not running; otherwise clears the flag and stops position monitoring. */
    method Stop()
      modifies this, positionManager
      ensures !running
      ensures !old(running) ==> positionManager.monitoring == old(positionManager.monitoring)
      ensures old(running) ==> !positionManager.monitoring
      ensures lastCheckTimes == old(lastCheckTimes)
      ensures positionManager.Snapshot() == old(positionManager.Snapshot())
    {
      if !running {
        return;
      }
      running := false;
      positionManager.StopMonitoring();
    }

    /** `emergency_stop`: closes every reported position first, then stops. */
    method EmergencyStop(ps: seq<Position>, closeOk: string -> bool) returns (attempted: seq<string>)
      modifies this, positionManager
      ensures attempted == Coins(ps)
      ensures positionManager.Snapshot() == CloseAll(old(positionManager.Snapshot()), ps, closeOk)
      ensures !running
      ensures old(running) ==> !positionManager.monitoring
      ensures !old(running) ==> positionManager.monitoring == old(positionManager.monitoring)
      ensures lastCheckTimes == old(lastCheckTimes)
    {
      attempted := positionManager.ForceCloseAll(ps, closeOk);
      Stop();
    }

    /**
      `get_status`. The position statistics go through `get_all_positions`, so the status call
      refreshes (and saves) the position records as a side effect.
    */
    method GetStatus(ps: seq<Position>, now: int) returns (status: BotStatus)
      modifies positionManager
      ensures positionManager.Snapshot() == UpdateAll(old(positionManager.Snapshot()), ps, now)
      ensures status.running == running && status.executeOrders == executeOrders
      ensures status.monitoredCoins == |monitoredCoins| && status.signalGenerators == |generators|
      ensures status.orderManager == orderManager.GetStats(now)
      ensures status.positionManager ==
        PositionStats(|ps|, SumUnrealizedPnl(ps), positionManager.monitoring, |positionManager.positionStates|)
    {
      var orderStats := orderManager.GetStats(now);
      var positionStats := positionManager.GetStats(ps, now);
      status := BotStatus(running, executeOrders, |monitoredCoins|, |generators|, orderStats, positionStats);
    }
  }
}
