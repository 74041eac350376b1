/**
  The candle download every generator performs, reduced to the number of rows it yields. The
  exchange returns at most `limit` of the candles it has; a failed request (or a limit below one,
  which the exchange refuses) yields no frame at all, which the generators treat as missing data.
*/
module CandleFeed {
  import opened Wrappers

  function Fetched(available: Option<nat>, limit: int): (rows: Option<nat>)
    ensures rows.Some? <==> available.Some? && limit >= 1
    ensures rows.Some? ==> rows.value <= limit && rows.value <= available.value
    ensures rows.Some? ==> rows.value == available.value || rows.value == limit
  {
    match available
    case None => None
    case Some(n) => if limit < 1 then None else Some(if n <= limit then n else limit)
  }
}
