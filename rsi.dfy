/**
 * The RSI calculator's guards. The numeric stage (building a frame from the
 * kline list, converting closes to float, the 14-period RSI of the last row,
 * truncation to int) is the parameter `rsi14`; its None stands for an
 * exception raised in that stage, which the calculator's handler turns into
 * None as well.
 */
module RsiCalculation {
  import opened Wrappers
  import opened JsonValues

  /**
   * `calculate_rsi(klines)`: the RSI of the "list" entry when klines is a dict
   * holding a non-empty (truthy) list, and None in every other case; it never raises.
   */
  function CalculateRsi(klines: Json, rsi14: Json -> Option<int>): (r: Option<int>)
    ensures r.Some? ==> klines.JObject? && "list" in klines.fields && Truthy(klines.fields["list"])
    ensures klines.JObject? && "list" in klines.fields && Truthy(klines.fields["list"]) ==>
      r == rsi14(klines.fields["list"])
  {
    match Member(klines, "list")
    case None => None
    case Some(list) => if Truthy(list) then rsi14(list) else None
  }

  /** No "list" key, an empty list, or a value that is not a dict: no RSI, whatever the indicator would say. */
  lemma GuardsGiveNone(klines: Json, rsi14: Json -> Option<int>)
    ensures !klines.JObject? ==> CalculateRsi(klines, rsi14) == None
    ensures klines.JObject? && "list" !in klines.fields ==> CalculateRsi(klines, rsi14) == None
    ensures klines.JObject? && "list" in klines.fields && klines.fields["list"] == JArray([]) ==>
      CalculateRsi(klines, rsi14) == None
  {
  }
}
