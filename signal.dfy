/**
  The signal record every generator produces and the order and scheduling components consume
  (core/signal.py). A record is only ever built through `NewSignal`, which performs the checks the
  dataclass performs after initialisation; a failed check is the `None` result (Python raises an
  AssertionError, which every generator catches and turns into "no signal").
*/
module Signals {
  import opened Wrappers

  datatype Action = Buy | Sell | Hold

  /** The action as the string the record stores. */
  function ActionName(a: Action): string {
    match a
    case Buy => "BUY"
    case Sell => "SELL"
    case Hold => "HOLD"
  }

  /** Reads an action string; only the three names are accepted. */
  function ParseAction(s: string): (r: Option<Action>)
    ensures r.Some? <==> s == "BUY" || s == "SELL" || s == "HOLD"
    ensures r.Some? ==> ActionName(r.value) == s
    ensures forall a :: s == ActionName(a) ==> r == Some(a)
  {
    if s == "BUY" then Some(Buy)
    else if s == "SELL" then Some(Sell)
    else if s == "HOLD" then Some(Hold)
    else None
  }

  /**
    A trading recommendation for one coin. The timestamp is in integer seconds; the free-form
    metadata dictionary is not modelled.
  */
  datatype Signal = Signal(coin: string, action: Action, strength: real, timestamp: int, source: string)

  /** The invariants `__post_init__` asserts. */
  predicate Valid(s: Signal) {
    0.0 <= s.strength <= 1.0 && s.coin != "" && s.source != ""
  }

  /**
    Construction of a record with its validation: the action must be one of the three names, the
    strength must lie in [0, 1], and coin and source must be non-empty.
  */
  function NewSignal(coin: string, action: string, strength: real, timestamp: int, source: string): (r: Option<Signal>)
    ensures r.Some? <==>
      (action == "BUY" || action == "SELL" || action == "HOLD") && 0.0 <= strength <= 1.0 && coin != "" && source != ""
    ensures r.Some? ==> Valid(r.value)
    ensures r.Some? ==> r.value.coin == coin && ActionName(r.value.action) == action &&
                        r.value.strength == strength && r.value.timestamp == timestamp && r.value.source == source
  {
    match ParseAction(action)
    case None => None
    case Some(a) =>
      if 0.0 <= strength <= 1.0 && coin != "" && source != "" then
        Some(Signal(coin, a, strength, timestamp, source))
      else
        None
  }

  /** The default threshold of `is_actionable`. */
  const DefaultActionableStrength: real := 0.7

  /** A BUY or SELL record whose strength reaches the threshold (0.7 when none is given). */
  function IsActionable(s: Signal, minStrength: real := DefaultActionableStrength): (r: bool)
    ensures r <==> s.action != Hold && s.strength >= minStrength
    ensures s.action == Hold ==> !r
  {
    (s.action == Buy || s.action == Sell) && s.strength >= minStrength
  }

  /** Actionability at one threshold carries over to every lower threshold. */
  lemma ActionableAtLowerThreshold(s: Signal, m: real, m': real)
    requires m' <= m && IsActionable(s, m)
    ensures IsActionable(s, m')
  {
  }
}
