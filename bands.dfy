/**
 * The three score bands that the colour helpers of the history list and of the score
 * indicator both use. Their thresholds, 6 and 8, presuppose scores on a 0–10 scale.
 */
module Bands {

  datatype Band = Low | Middle | High

  /** The band of a score on the 0–10 scale. */
  function TenPointBand(score: real): (b: Band)
    ensures b == High <==> score >= 8.0
    ensures b == Middle <==> 6.0 <= score < 8.0
    ensures b == Low <==> score < 6.0
  {
    if score < 6.0 then Low else if score < 8.0 then Middle else High
  }

  function Rank(b: Band): nat
  {
    match b
    case Low => 0
    case Middle => 1
    case High => 2
  }

  /** A higher score never lands in a lower band. */
  lemma TenPointBandMonotone(x: real, y: real)
    requires x <= y
    ensures Rank(TenPointBand(x)) <= Rank(TenPointBand(y))
  {
  }
}
