/**
  Exit management for open positions (managers/position_manager.py).

  The manager keeps one state record per open coin, whose main field is the high-water mark of
  the position's profit percentage. On each monitoring tick it drops the records of coins that are
  no longer open, refreshes the record of every open coin, applies the fixed stop-loss /
  take-profit rule and, after the gateway confirms a close, deletes that coin's record. Every write
  of the record file is counted in `saves`; the file's contents are not modelled.

  The gateway is an input: the open positions it reports (a Python dict, so the coins are
  distinct and ordered) and `closeOk`, whether it confirms the close of a coin with status 'ok'.
  `now` stands for the wall clock.
*/
module PositionManagement {
  import opened Wrappers

  /** The per-coin record. The trailing-stop flag is stored but no exit decision reads it. */
  datatype PositionState = PositionState(highestPnlPct: real, trailingStopActivated: bool, firstSeen: int, lastUpdated: int)

  /** One entry of the gateway's positions dict; a missing numeric field is the 0 the code defaults to. */
  datatype Position = Position(coin: string, size: real, profitPct: real, unrealizedPnl: real)

  datatype ExitReason = StopLoss | TakeProfit

  /** The shipped stop-loss and take-profit percentages (config/trading_settings.py). */
  const ShippedStopLossPercent: real := 2.2
  const ShippedTakeProfitPercent: real := 10.12

  function Coins(ps: seq<Position>): (r: seq<string>)
    ensures |r| == |ps| && forall i :: 0 <= i < |ps| ==> r[i] == ps[i].coin
  {
    if ps == [] then [] else [ps[0].coin] + Coins(ps[1..])
  }

  function CoinSet(ps: seq<Position>): set<string> {
    set p | p in ps :: p.coin
  }

  /** The keys of a dict are distinct. */
  predicate DistinctCoins(ps: seq<Position>) {
    forall i, j :: 0 <= i < j < |ps| ==> ps[i].coin != ps[j].coin
  }

  /**
    `_check_exit_conditions`: stop loss is checked first, then take profit; otherwise hold.
  */
  function CheckExitConditions(profitPct: real, stopLossPercent: real, takeProfitPercent: real): (r: Option<ExitReason>)
    ensures r == Some(StopLoss) <==> profitPct <= -stopLossPercent
    ensures r == Some(TakeProfit) <==> -stopLossPercent < profitPct && profitPct >= takeProfitPercent
    ensures r.None? <==> -stopLossPercent < profitPct < takeProfitPercent
  {
    if profitPct <= -stopLossPercent then Some(StopLoss)
    else if profitPct >= takeProfitPercent then Some(TakeProfit)
    else None
  }

  /** With the shipped settings a position at -2.5 % is stopped out and one at +10.5 % takes profit. */
  lemma ShippedExitExamples()
    ensures CheckExitConditions(-2.5, ShippedStopLossPercent, ShippedTakeProfitPercent) == Some(StopLoss)
    ensures CheckExitConditions(10.5, ShippedStopLossPercent, ShippedTakeProfitPercent) == Some(TakeProfit)
    ensures CheckExitConditions(-2.2, ShippedStopLossPercent, ShippedTakeProfitPercent) == Some(StopLoss)
    ensures CheckExitConditions(10.0, ShippedStopLossPercent, ShippedTakeProfitPercent) == None
  {
  }

  /** The record map together with the number of times it has been written to disk. */
  datatype Store = Store(states: map<string, PositionState>, saves: nat)

  /**
    `_update_position_state` on the map: a new coin starts with the current profit as its mark and
    no trailing stop; a known coin keeps the larger of its mark and the current profit. No other
    entry changes, and the mark never decreases.
  */
  function UpdateState(states: map<string, PositionState>, coin: string, profitPct: real, now: int): (r: map<string, PositionState>)
    ensures r.Keys == states.Keys + {coin}
    ensures forall k :: k in states && k != coin ==> r[k] == states[k]
    ensures coin !in states ==> r[coin] == PositionState(profitPct, false, now, now)
    ensures coin in states ==>
      r[coin].trailingStopActivated == states[coin].trailingStopActivated &&
      r[coin].firstSeen == states[coin].firstSeen && r[coin].lastUpdated == now &&
      r[coin].highestPnlPct == Max(states[coin].highestPnlPct, profitPct)
    ensures r[coin].highestPnlPct >= profitPct
    ensures coin in states ==> r[coin].highestPnlPct >= states[coin].highestPnlPct
  {
    if coin !in states then
      states[coin := PositionState(profitPct, false, now, now)]
    else
      var s := states[coin];
      var highest := if profitPct > s.highestPnlPct then profitPct else s.highestPnlPct;
      states[coin := s.(highestPnlPct := highest, lastUpdated := now)]
  }

  /** An update always writes the file once. */
  function UpdateStore(st: Store, coin: string, profitPct: real, now: int): (r: Store)
    ensures r.states == UpdateState(st.states, coin, profitPct, now) && r.saves == st.saves + 1
  {
    Store(UpdateState(st.states, coin, profitPct, now), st.saves + 1)
  }

  /**
    `_cleanup_closed_positions`: keeps exactly the records of open coins, unchanged, and writes the
    file only when something was removed.
  */
  function CleanupStore(st: Store, open: set<string>): (r: Store)
    ensures r.states.Keys == st.states.Keys * open
    ensures forall k :: k in r.states ==> r.states[k] == st.states[k]
    ensures r.saves == st.saves + (if st.states.Keys <= open then 0 else 1)
  {
    var kept := map k | k in st.states && k in open :: st.states[k];
    Store(kept, st.saves + (if st.states.Keys <= open then 0 else 1))
  }

  /** `_close_position` after the gateway call: the record goes only on a confirmed close. */
  function CloseStore(st: Store, coin: string, ok: bool): (r: Store)
    ensures ok ==> r.states.Keys == st.states.Keys - {coin}
    ensures !ok ==> r == st
    ensures forall k :: k in r.states ==> k in st.states && r.states[k] == st.states[k]
    ensures coin !in st.states ==> r == st
  {
    if ok && coin in st.states then Store(st.states - {coin}, st.saves + 1) else st
  }

  /** The per-position part of a tick, in the gateway's order. */
  function ApplyTick(st: Store, ps: seq<Position>, closeOk: string -> bool, now: int, sl: real, tp: real): Store
    decreases |ps|
  {
    if ps == [] then st
    else
      var p := ps[0];
      var st1 := UpdateStore(st, p.coin, p.profitPct, now);
      var st2 := if CheckExitConditions(p.profitPct, sl, tp).Some? then CloseStore(st1, p.coin, closeOk(p.coin)) else st1;
      ApplyTick(st2, ps[1..], closeOk, now, sl, tp)
  }

  /**
    One `_check_positions` tick: the cleanup, then the per-position work. For an empty positions
    dict this clears every record (the cleanup against no open coins).
  */
  function TickSpec(st: Store, ps: seq<Position>, closeOk: string -> bool, now: int, sl: real, tp: real): Store {
    ApplyTick(CleanupStore(st, CoinSet(ps)), ps, closeOk, now, sl, tp)
  }

  /** The coins a tick closes with confirmation. */
  function ClosedOk(ps: seq<Position>, closeOk: string -> bool, sl: real, tp: real): set<string> {
    set p | p in ps && CheckExitConditions(p.profitPct, sl, tp).Some? && closeOk(p.coin) :: p.coin
  }

  /** `get_positions_to_sell` and the close calls of a tick: coin and reason per firing exit rule, in order. */
  function ExitList(ps: seq<Position>, sl: real, tp: real): (r: seq<(string, ExitReason)>)
    ensures |r| <= |ps|
    decreases |ps|
  {
    if ps == [] then []
    else
      var last := ps[|ps| - 1];
      var rest := ExitList(ps[..|ps| - 1], sl, tp);
      match CheckExitConditions(last.profitPct, sl, tp)
      case None => rest
      case Some(reason) => rest + [(last.coin, reason)]
  }

  /** An entry is in the exit list exactly when some position's exit rule fires with that reason. */
  lemma {:induction false} ExitListMembership(ps: seq<Position>, sl: real, tp: real, coin: string, reason: ExitReason)
    ensures (coin, reason) in ExitList(ps, sl, tp) <==>
      exists j :: 0 <= j < |ps| && ps[j].coin == coin && CheckExitConditions(ps[j].profitPct, sl, tp) == Some(reason)
    decreases |ps|
  {
    if ps != [] {
      var init := ps[..|ps| - 1];
      ExitListMembership(init, sl, tp, coin, reason);
      assert forall j :: 0 <= j < |init| ==> init[j] == ps[j];
      if (coin, reason) in ExitList(ps, sl, tp) && (coin, reason) !in ExitList(init, sl, tp) {
        assert ps[|ps| - 1].coin == coin;
      }
    }
  }

  /** A coin not reported by the gateway keeps its record through the per-position work. */
  lemma {:induction false} ApplyTickUntouched(st: Store, ps: seq<Position>, closeOk: string -> bool, now: int, sl: real, tp: real, c: string)
    requires c !in CoinSet(ps)
    ensures var r := ApplyTick(st, ps, closeOk, now, sl, tp);
      (c in r.states <==> c in st.states) && (c in st.states ==> r.states[c] == st.states[c])
    decreases |ps|
  {
    if ps != [] {
      var p := ps[0];
      var st1 := UpdateStore(st, p.coin, p.profitPct, now);
      var st2 := if CheckExitConditions(p.profitPct, sl, tp).Some? then CloseStore(st1, p.coin, closeOk(p.coin)) else st1;
      CoinSetCons(ps);
      ApplyTickUntouched(st2, ps[1..], closeOk, now, sl, tp, c);
    }
  }

  lemma CoinSetCons(ps: seq<Position>)
    requires ps != []
    ensures CoinSet(ps) == {ps[0].coin} + CoinSet(ps[1..])
  {
    assert ps == [ps[0]] + ps[1..];
  }

  lemma ClosedOkCons(ps: seq<Position>, closeOk: string -> bool, sl: real, tp: real)
    requires ps != []
    ensures ClosedOk(ps, closeOk, sl, tp) ==
      (if CheckExitConditions(ps[0].profitPct, sl, tp).Some? && closeOk(ps[0].coin) then {ps[0].coin} else {}) +
      ClosedOk(ps[1..], closeOk, sl, tp)
  {
    assert ps == [ps[0]] + ps[1..];
  }

  /** In a dict the first key does not occur again, and the rest is a dict too. */
  lemma DistinctTail(ps: seq<Position>)
    requires ps != [] && DistinctCoins(ps)
    ensures DistinctCoins(ps[1..]) && ps[0].coin !in CoinSet(ps[1..])
  {
    forall q | q in ps[1..] ensures q.coin != ps[0].coin {
      var j :| 0 <= j < |ps[1..]| && ps[1..][j] == q;
      assert ps[j + 1] == q;
    }
  }

  /** With distinct coins, the records left after the per-position work. */
  lemma {:induction false} ApplyTickKeys(st: Store, ps: seq<Position>, closeOk: string -> bool, now: int, sl: real, tp: real)
    requires DistinctCoins(ps)
    ensures ApplyTick(st, ps, closeOk, now, sl, tp).states.Keys == (st.states.Keys + CoinSet(ps)) - ClosedOk(ps, closeOk, sl, tp)
    decreases |ps|
  {
    if ps != [] {
      var p := ps[0];
      var st1 := UpdateStore(st, p.coin, p.profitPct, now);
      var st2 := if CheckExitConditions(p.profitPct, sl, tp).Some? then CloseStore(st1, p.coin, closeOk(p.coin)) else st1;
      var rest := ps[1..];
      DistinctTail(ps);
      ApplyTickKeys(st2, rest, closeOk, now, sl, tp);
      CoinSetCons(ps);
      ClosedOkCons(ps, closeOk, sl, tp);
      var closesHere := CheckExitConditions(p.profitPct, sl, tp).Some? && closeOk(p.coin);
      assert st2.states.Keys == (st.states.Keys + {p.coin}) - (if closesHere then {p.coin} else {});
      assert p.coin !in ClosedOk(rest, closeOk, sl, tp);
    }
  }

  /**
    After a tick the records are exactly those of the reported coins the tick did not close with
    confirmation: a record is deleted exactly when its coin is absent or was closed.
  */
  lemma TickKeys(st: Store, ps: seq<Position>, closeOk: string -> bool, now: int, sl: real, tp: real)
    requires DistinctCoins(ps)
    ensures TickSpec(st, ps, closeOk, now, sl, tp).states.Keys == CoinSet(ps) - ClosedOk(ps, closeOk, sl, tp)
  {
    ApplyTickKeys(CleanupStore(st, CoinSet(ps)), ps, closeOk, now, sl, tp);
  }

  /** An empty positions answer clears every record. */
  lemma EmptyTickClears(st: Store, closeOk: string -> bool, now: int, sl: real, tp: real)
    ensures TickSpec(st, [], closeOk, now, sl, tp).states == map[]
    ensures TickSpec(st, [], closeOk, now, sl, tp).saves == st.saves + (if st.states == map[] then 0 else 1)
  {
    assert CoinSet([]) == {};
    if st.states != map[] {
      var k :| k in st.states;
      assert !(st.states.Keys <= {});
    }
  }

  /** The record of a reported coin right after its own update survives the rest of the tick. */
  lemma {:induction false} ApplyTickEntry(st: Store, ps: seq<Position>, closeOk: string -> bool, now: int, sl: real, tp: real, j: nat)
    requires DistinctCoins(ps) && j < |ps|
    ensures var r := ApplyTick(st, ps, closeOk, now, sl, tp); var c := ps[j].coin;
      c in r.states ==> r.states[c] == UpdateState(st.states, c, ps[j].profitPct, now)[c]
    decreases |ps|
  {
    var p := ps[0];
    var st1 := UpdateStore(st, p.coin, p.profitPct, now);
    var st2 := if CheckExitConditions(p.profitPct, sl, tp).Some? then CloseStore(st1, p.coin, closeOk(p.coin)) else st1;
    var rest := ps[1..];
    DistinctTail(ps);
    if j == 0 {
      ApplyTickUntouched(st2, rest, closeOk, now, sl, tp, p.coin);
    } else {
      assert rest[j - 1] == ps[j];
      ApplyTickEntry(st2, rest, closeOk, now, sl, tp, j - 1);
      assert ps[j].coin != p.coin;
    }
  }

  /**
    The high-water mark after a tick: a surviving coin's mark is the larger of its previous mark and
    the reported profit, or the reported profit for a coin seen for the first time.
  */
  lemma TickHighWater(st: Store, ps: seq<Position>, closeOk: string -> bool, now: int, sl: real, tp: real, j: nat)
    requires DistinctCoins(ps) && j < |ps|
    ensures var r := TickSpec(st, ps, closeOk, now, sl, tp); var c := ps[j].coin;
      c in r.states ==>
        r.states[c].highestPnlPct == if c in st.states then Max(st.states[c].highestPnlPct, ps[j].profitPct) else ps[j].profitPct
  {
    var cleaned := CleanupStore(st, CoinSet(ps));
    assert ps[j] in ps;
    ApplyTickEntry(cleaned, ps, closeOk, now, sl, tp, j);
  }

  /** The mark a coin carries after a run of readings. */
  function Track(states: map<string, PositionState>, coin: string, readings: seq<real>, now: int): map<string, PositionState>
    decreases |readings|
  {
    if readings == [] then states
    else Track(UpdateState(states, coin, readings[0], now), coin, readings[1..], now)
  }

  function SeqMax(s: seq<real>): real
    requires s != []
  {
    if |s| == 1 then s[0] else Max(s[0], SeqMax(s[1..]))
  }

  /** From a coin's first reading on, its mark is the largest reading so far. */
  lemma {:induction false} TrackIsMaximum(states: map<string, PositionState>, coin: string, readings: seq<real>, now: int)
    requires readings != []
    ensures coin in Track(states, coin, readings, now)
    ensures coin !in states ==> Track(states, coin, readings, now)[coin].highestPnlPct == SeqMax(readings)
    ensures coin in states ==>
      Track(states, coin, readings, now)[coin].highestPnlPct == Max(states[coin].highestPnlPct, SeqMax(readings))
    decreases |readings|
  {
    var next := UpdateState(states, coin, readings[0], now);
    if |readings| > 1 {
      TrackIsMaximum(next, coin, readings[1..], now);
    }
  }

  /** The gateway-reported positions with the records `get_all_positions` attaches. */
  function UpdateAll(st: Store, ps: seq<Position>, now: int): Store
    decreases |ps|
  {
    if ps == [] then st else UpdateAll(UpdateStore(st, ps[0].coin, ps[0].profitPct, now), ps[1..], now)
  }

  /** `force_close_all`: one close attempt per reported coin. */
  function CloseAll(st: Store, ps: seq<Position>, closeOk: string -> bool): Store
    decreases |ps|
  {
    if ps == [] then st else CloseAll(CloseStore(st, ps[0].coin, closeOk(ps[0].coin)), ps[1..], closeOk)
  }

  /** Closing everything leaves exactly the records of coins whose close was not confirmed. */
  lemma {:induction false} CloseAllKeys(st: Store, ps: seq<Position>, closeOk: string -> bool)
    ensures CloseAll(st, ps, closeOk).states.Keys == st.states.Keys - (set p | p in ps && closeOk(p.coin) :: p.coin)
    ensures forall k :: k in CloseAll(st, ps, closeOk).states ==> CloseAll(st, ps, closeOk).states[k] == st.states[k]
    decreases |ps|
  {
    if ps != [] {
      var st1 := CloseStore(st, ps[0].coin, closeOk(ps[0].coin));
      CloseAllKeys(st1, ps[1..], closeOk);
      assert ps == [ps[0]] + ps[1..];
      assert (set p | p in ps && closeOk(p.coin) :: p.coin) ==
        (if closeOk(ps[0].coin) then {ps[0].coin} else {}) + (set p | p in ps[1..] && closeOk(p.coin) :: p.coin);
    }
  }

  /** Sum of the reported unrealized PnL (the statistic's generator sum). */
  function SumUnrealizedPnl(ps: seq<Position>): real {
    if ps == [] then 0.0 else ps[0].unrealizedPnl + SumUnrealizedPnl(ps[1..])
  }

  datatype PositionStats = PositionStats(totalPositions: nat, totalUnrealizedPnl: real, monitoring: bool, trackedStates: nat)

  class PositionManager {
    const stopLossPercent: real
    const takeProfitPercent: real
    var positionStates: map<string, PositionState>
    var saves: nat
    var monitoring: bool

    function Snapshot(): Store
      reads this
    {
      Store(positionStates, saves)
    }

    /** Starts from the records loaded from disk (an empty map when the file is missing or unreadable). */
    constructor(stopLossPercent: real, takeProfitPercent: real, loaded: map<string, PositionState>)
      ensures this.stopLossPercent == stopLossPercent && this.takeProfitPercent == takeProfitPercent
      ensures positionStates == loaded && saves == 0 && !monitoring
    {
      this.stopLossPercent := stopLossPercent;
      this.takeProfitPercent := takeProfitPercent;
      positionStates := loaded;
      saves := 0;
      monitoring := false;
    }

    /** `_update_position_state` */
    method UpdatePositionState(coin: string, profitPct: real, now: int)
      modifies this
      ensures Snapshot() == UpdateStore(old(Snapshot()), coin, profitPct, now)
      ensures monitoring == old(monitoring)
    {
      if coin !in positionStates {
        positionStates := positionStates[coin := PositionState(profitPct, false, now, now)];
      } else {
        var currentHighest := positionStates[coin].highestPnlPct;
        if profitPct > currentHighest {
          positionStates := positionStates[coin := positionStates[coin].(highestPnlPct := profitPct)];
        }
        positionStates := positionStates[coin := positionStates[coin].(lastUpdated := now)];
      }
      saves := saves + 1;
    }

    /** `_cleanup_closed_positions`: deletes the records of the coins not in `openCoins` one by one. */
    method CleanupClosedPositions(openCoins: set<string>)
      modifies this
      ensures Snapshot() == CleanupStore(old(Snapshot()), openCoins)
      ensures monitoring == old(monitoring)
    {
      var closed := set k | k in positionStates && k !in openCoins;
      if closed != {} {
        ghost var s0 := positionStates;
        var rest := closed;
        while rest != {}
          invariant rest <= closed
          invariant positionStates.Keys == s0.Keys - (closed - rest)
          invariant forall k :: k in positionStates ==> positionStates[k] == s0[k]
          invariant saves == old(saves) && monitoring == old(monitoring)
          decreases |rest|
        {
          var c :| c in rest;
          positionStates := positionStates - {c};
          rest := rest - {c};
        }
        assert !(s0.Keys <= openCoins) by {
          var c :| c in closed;
        }
        assert positionStates == map k | k in s0 && k in openCoins :: s0[k];
        saves := saves + 1;
      } else {
        assert forall k :: k in positionStates ==> k in openCoins || k in closed;
        assert positionStates == map k | k in positionStates && k in openCoins :: positionStates[k];
      }
    }

    /** `_close_position`: `ok` is whether the gateway answered the close with status 'ok'. */
    method ClosePosition(coin: string, ok: bool)
      modifies this
      ensures Snapshot() == CloseStore(old(Snapshot()), coin, ok)
      ensures monitoring == old(monitoring)
    {
      if ok {
        if coin in positionStates {
          positionStates := positionStates - {coin};
          saves := saves + 1;
        }
      }
    }

    /**
      `_check_positions`: one monitoring tick over the reported positions. Returns the close calls
      made, which are exactly the `get_positions_to_sell` answer for the same positions.
    */
    method CheckPositions(ps: seq<Position>, closeOk: string -> bool, now: int) returns (exits: seq<(string, ExitReason)>)
      modifies this
      ensures exits == ExitList(ps, stopLossPercent, takeProfitPercent)
      ensures Snapshot() == TickSpec(old(Snapshot()), ps, closeOk, now, stopLossPercent, takeProfitPercent)
      ensures monitoring == old(monitoring)
    {
      exits := [];
      if |ps| == 0 {
        if |positionStates| > 0 {
          CleanupClosedPositions({});
        } else {
          assert positionStates.Keys <= CoinSet(ps);
        }
        return;
      }
      CleanupClosedPositions(CoinSet(ps));
      ghost var cleaned := Snapshot();
      var i := 0;
      while i < |ps|
        invariant 0 <= i <= |ps|
        invariant ApplyTick(Snapshot(), ps[i..], closeOk, now, stopLossPercent, takeProfitPercent) ==
                  ApplyTick(cleaned, ps, closeOk, now, stopLossPercent, takeProfitPercent)
        invariant exits == ExitList(ps[..i], stopLossPercent, takeProfitPercent)
        invariant monitoring == old(monitoring)
      {
        var p := ps[i];
        assert ps[i..][1..] == ps[i + 1..];
        assert ps[..i + 1][..i] == ps[..i];
        UpdatePositionState(p.coin, p.profitPct, now);
        var reason := CheckExitConditions(p.profitPct, stopLossPercent, takeProfitPercent);
        if reason.Some? {
          exits := exits + [(p.coin, reason.value)];
          ClosePosition(p.coin, closeOk(p.coin));
        }
        i := i + 1;
      }
      assert ps[..i] == ps;
    }

    /** `get_positions_to_sell`: the exit rule over the reported positions, with no close and no write. */
    method GetPositionsToSell(ps: seq<Position>) returns (sell: seq<(string, ExitReason)>)
      ensures sell == ExitList(ps, stopLossPercent, takeProfitPercent)
      ensures forall c, r :: (c, r) in sell <==>
        exists j :: 0 <= j < |ps| && ps[j].coin == c && CheckExitConditions(ps[j].profitPct, stopLossPercent, takeProfitPercent) == Some(r)
    {
      sell := [];
      var i := 0;
      while i < |ps|
        invariant 0 <= i <= |ps|
        invariant sell == ExitList(ps[..i], stopLossPercent, takeProfitPercent)
      {
        assert ps[..i + 1][..i] == ps[..i];
        var reason := CheckExitConditions(ps[i].profitPct, stopLossPercent, takeProfitPercent);
        if reason.Some? {
          sell := sell + [(ps[i].coin, reason.value)];
        }
        i := i + 1;
      }
      assert ps[..i] == ps;
      forall c, r
        ensures (c, r) in sell <==>
          exists j :: 0 <= j < |ps| && ps[j].coin == c && CheckExitConditions(ps[j].profitPct, stopLossPercent, takeProfitPercent) == Some(r)
      {
        ExitListMembership(ps, stopLossPercent, takeProfitPercent, c, r);
      }
    }

    /** `force_close_all`: a close attempt for every reported coin, in order; nothing for no positions. */
    method ForceCloseAll(ps: seq<Position>, closeOk: string -> bool) returns (attempted: seq<string>)
      modifies this
      ensures attempted == Coins(ps)
      ensures Snapshot() == CloseAll(old(Snapshot()), ps, closeOk)
      ensures monitoring == old(monitoring)
    {
      attempted := [];
      var i := 0;
      while i < |ps|
        invariant 0 <= i <= |ps|
        invariant attempted == Coins(ps[..i])
        invariant CloseAll(Snapshot(), ps[i..], closeOk) == CloseAll(old(Snapshot()), ps, closeOk)
        invariant monitoring == old(monitoring)
      {
        assert ps[i..][1..] == ps[i + 1..];
        ClosePosition(ps[i].coin, closeOk(ps[i].coin));
        attempted := attempted + [ps[i].coin];
        i := i + 1;
      }
      assert ps[..i] == ps;
    }

    /**
      `get_all_positions`: refreshes every reported coin's record and pairs each position with a
      copy of its record.
    */
    method GetAllPositions(ps: seq<Position>, now: int) returns (result: seq<(Position, PositionState)>)
      modifies this
      ensures Snapshot() == UpdateAll(old(Snapshot()), ps, now)
      ensures |result| == |ps| && forall i :: 0 <= i < |ps| ==> result[i].0 == ps[i]
      ensures DistinctCoins(ps) ==> forall i :: 0 <= i < |ps| ==> ps[i].coin in positionStates && result[i].1 == positionStates[ps[i].coin]
      ensures monitoring == old(monitoring)
    {
      result := [];
      var i := 0;
      while i < |ps|
        invariant 0 <= i <= |ps|
        invariant UpdateAll(Snapshot(), ps[i..], now) == UpdateAll(old(Snapshot()), ps, now)
        invariant |result| == i && forall k :: 0 <= k < i ==> result[k].0 == ps[k]
        invariant DistinctCoins(ps) ==> forall k :: 0 <= k < i ==> ps[k].coin in positionStates && result[k].1 == positionStates[ps[k].coin]
        invariant monitoring == old(monitoring)
      {
        assert ps[i..][1..] == ps[i + 1..];
        var p := ps[i];
        UpdatePositionState(p.coin, p.profitPct, now);
        result := result + [(p, positionStates[p.coin])];
        i := i + 1;
      }
    }

    /** `get_stats`: statistics over `get_all_positions`, which refreshes the records as a side effect. */
    method GetStats(ps: seq<Position>, now: int) returns (stats: PositionStats)
      modifies this
      ensures Snapshot() == UpdateAll(old(Snapshot()), ps, now)
      ensures stats == PositionStats(|ps|, SumUnrealizedPnl(ps), monitoring, |positionStates|)
      ensures monitoring == old(monitoring)
    {
      var all := GetAllPositions(ps, now);
      stats := PositionStats(|all|, SumUnrealizedPnl(ps), monitoring, |positionStates|);
    }

    /** `start_monitoring`: sets the flag unless it is already set (the thread is not modelled). */
    method StartMonitoring()
      modifies this
      ensures monitoring && Snapshot() == old(Snapshot())
    {
      if monitoring {
        return;
      }
      monitoring := true;
    }

    /** `stop_monitoring` */
    method StopMonitoring()
      modifies this
      ensures !monitoring && Snapshot() == old(Snapshot())
    {
      if !monitoring {
        return;
      }
      monitoring := false;
    }
  }
}
