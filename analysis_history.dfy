/**
 * The statistics and labels of the history panel (src/app/components/AnalysisHistory.tsx).
 */
module AnalysisHistory {
  import opened Wrappers
  import opened MockApi
  import opened Bands

  /** A record's score when it is a number, else 0. */
  function SafeScore(item: SavedAnalysis): real
  {
    match item.response.comprehensionScore
    case Number(v) => v
    case NonNumber => 0.0
  }

  /** `safeScores`: one score per record, in the same order. */
  function SafeScores(history: seq<SavedAnalysis>): (r: seq<real>)
    ensures |r| == |history|
    ensures forall i :: 0 <= i < |history| ==>
              r[i] == (if history[i].response.comprehensionScore.Number?
                       then history[i].response.comprehensionScore.value else 0.0)
  {
    if history == [] then [] else [SafeScore(history[0])] + SafeScores(history[1..])
  }

  /** `scores.reduce((sum, score) => sum + score, 0)` */
  function Sum(scores: seq<real>): real
  {
    if scores == [] then 0.0 else Sum(scores[..|scores| - 1]) + scores[|scores| - 1]
  }

  /** The largest score of a non-empty list (`Math.max(...scores)`). */
  function MaxOf(scores: seq<real>): (m: real)
    requires |scores| > 0
    ensures forall i :: 0 <= i < |scores| ==> scores[i] <= m
    ensures exists i :: 0 <= i < |scores| && scores[i] == m
  {
    if |scores| == 1 then scores[0]
    else
      var rest := MaxOf(scores[1..]);
      assert forall i :: 1 <= i < |scores| ==> scores[i] == scores[1..][i - 1];
      if scores[0] >= rest then scores[0] else rest
  }

  /** The smallest score of a non-empty list. */
  function MinOf(scores: seq<real>): (m: real)
    requires |scores| > 0
    ensures forall i :: 0 <= i < |scores| ==> m <= scores[i]
    ensures exists i :: 0 <= i < |scores| && scores[i] == m
  {
    if |scores| == 1 then scores[0]
    else
      var rest := MinOf(scores[1..]);
      assert forall i :: 1 <= i < |scores| ==> scores[i] == scores[1..][i - 1];
      if scores[0] <= rest then scores[0] else rest
  }

  /** `bestScore` */
  function BestScore(scores: seq<real>): (best: real)
    ensures |scores| > 0 ==> forall i :: 0 <= i < |scores| ==> scores[i] <= best
    ensures |scores| > 0 ==> exists i :: 0 <= i < |scores| && scores[i] == best
    ensures |scores| == 0 ==> best == 0.0
  {
    if |scores| > 0 then MaxOf(scores) else 0.0
  }

  lemma {:induction false} SumBounds(scores: seq<real>, lo: real, hi: real)
    requires forall i :: 0 <= i < |scores| ==> lo <= scores[i] <= hi
    ensures |scores| as real * lo <= Sum(scores) <= |scores| as real * hi
  {
    if scores != [] {
      var init := scores[..|scores| - 1];
      assert forall i :: 0 <= i < |init| ==> init[i] == scores[i];
      SumBounds(init, lo, hi);
      var k := |init| as real;
      var last := scores[|scores| - 1];
      assert Sum(scores) == Sum(init) + last;
      assert k * lo <= Sum(init) <= k * hi;
      assert lo <= last <= hi;
      var n := |scores| as real;
      assert n == k + 1.0;
      assert n * lo == k * lo + lo by { assert n * lo == (k + 1.0) * lo; }
      assert n * hi == k * hi + hi by { assert n * hi == (k + 1.0) * hi; }
    }
  }

  lemma MeanBounds(total: real, n: real, lo: real, hi: real)
    requires n > 0.0 && n * lo <= total <= n * hi
    ensures lo <= total / n <= hi
  {
  }

  /** The mean of a non-empty list lies within any bounds of its elements. */
  lemma MeanWithinBounds(scores: seq<real>, lo: real, hi: real)
    requires |scores| > 0
    requires forall i :: 0 <= i < |scores| ==> lo <= scores[i] <= hi
    ensures lo <= Sum(scores) / |scores| as real <= hi
  {
    var total, n := Sum(scores), |scores| as real;
    SumBounds(scores, lo, hi);
    MeanBounds(total, n, lo, hi);
  }

  /** The mean of a non-empty list lies between its smallest and its best score. */
  lemma MeanBetweenMinAndBest(scores: seq<real>)
    requires |scores| > 0
    ensures MinOf(scores) <= Sum(scores) / |scores| as real <= BestScore(scores)
  {
    MeanWithinBounds(scores, MinOf(scores), MaxOf(scores));
  }

  /** `averageScore`: the mean of the scores, 0 for none; it lies between the smallest and the
      largest score. */
  function AverageScore(scores: seq<real>): (avg: real)
    ensures |scores| == 0 ==> avg == 0.0
    ensures |scores| > 0 ==> MinOf(scores) <= avg <= BestScore(scores)
  {
    if |scores| == 0 then 0.0
    else
      MeanBetweenMinAndBest(scores);
      Sum(scores) / |scores| as real
  }

  /** The average is the mean: times the count it gives back the total. */
  lemma AverageTimesCount(scores: seq<real>)
    requires |scores| > 0
    ensures AverageScore(scores) * |scores| as real == Sum(scores)
  {
    QuotientTimesDivisor(AverageScore(scores), Sum(scores), |scores| as real);
  }

  lemma QuotientTimesDivisor(q: real, total: real, n: real)
    requires n != 0.0 && q == total / n
    ensures q * n == total
  {
  }

  /** The badge colour of a record's score. */
  function ScoreColor(score: real): (c: string)
    ensures c == BadgeClasses(TenPointBand(score))
  {
    if score >= 8.0 then "text-green-600 bg-green-100"
    else if score >= 6.0 then "text-yellow-600 bg-yellow-100"
    else "text-red-600 bg-red-100"
  }

  function BadgeClasses(b: Band): string
  {
    match b
    case High => "text-green-600 bg-green-100"
    case Middle => "text-yellow-600 bg-yellow-100"
    case Low => "text-red-600 bg-red-100"
  }

  /** The noun after the record count. */
  function CountLabel(count: nat): (noun: string)
    ensures noun == "запись" <==> count == 1
    ensures noun == "записей" <==> count != 1
  {
    if count == 1 then "запись" else "записей"
  }

  /** The figures the panel shows. */
  datatype Summary = Summary(count: nat, noun: string, average: real, best: real)

  /** The panel: nothing for an empty history; otherwise the count with its noun, the mean
      and the best of the safe scores. */
  function Summarize(history: seq<SavedAnalysis>): (panel: Option<Summary>)
    ensures panel.None? <==> |history| == 0
    ensures panel.Some? ==>
              && panel.value.count == |history|
              && (panel.value.noun == "запись" <==> |history| == 1)
              && (forall i :: 0 <= i < |history| ==> SafeScore(history[i]) <= panel.value.best)
              && (exists i :: 0 <= i < |history| && SafeScore(history[i]) == panel.value.best)
              && (exists i :: 0 <= i < |history| && SafeScore(history[i]) <= panel.value.average)
              && panel.value.average <= panel.value.best
    ensures panel.Some? ==> panel.value.average == AverageScore(SafeScores(history))
    ensures panel.Some? ==> panel.value.noun == CountLabel(|history|)
  {
    if |history| == 0 then None
    else
      var scores := SafeScores(history);
      assert forall i :: 0 <= i < |history| ==> scores[i] == SafeScore(history[i]);
      var average := AverageScore(scores);
      ghost var k :| 0 <= k < |scores| && scores[k] == MinOf(scores);
      assert SafeScore(history[k]) <= average;
      Some(Summary(|history|, CountLabel(|history|), average, BestScore(scores)))
  }
}
