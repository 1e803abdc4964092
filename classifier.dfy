/** The plausibility check applied to each measured latency (milliseconds). */
module Classifier {

  datatype Outcome = Valid | TooSlow | TooFast

  /**
   * Both thresholds count as Valid. Outside them, a latency above `tooSlow` is TooSlow,
   * otherwise it is TooFast; when `tooFast > tooSlow` the TooSlow test is the one that wins.
   */
  function Classify(latencyMs: real, tooFast: real, tooSlow: real): (o: Outcome)
    ensures o == Valid <==> tooFast <= latencyMs <= tooSlow
    ensures o == TooSlow <==> latencyMs > tooSlow
    ensures o == TooFast <==> latencyMs < tooFast && latencyMs <= tooSlow
  {
    if tooFast <= latencyMs <= tooSlow then Valid
    else if latencyMs > tooSlow then TooSlow
    else TooFast
  }
}
