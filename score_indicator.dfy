/**
 * The score panel's derived values (src/app/components/ScoreIndicator.tsx): three colour
 * helpers and the description line, which band the score on a 0–10 scale, and the letter
 * grade and the "до 100" figure, which read it on a 0–100 scale.
 */
module ScoreIndicator {
  import opened Bands
  import ResultsDisplay

  function TextColor(b: Band): string
  {
    match b
    case High => "text-green-600"
    case Middle => "text-yellow-600"
    case Low => "text-red-600"
  }

  function Gradient(b: Band): string
  {
    match b
    case High => "from-green-500 to-emerald-500"
    case Middle => "from-yellow-500 to-orange-500"
    case Low => "from-red-500 to-rose-500"
  }

  function Glow(b: Band): string
  {
    match b
    case High => "shadow-green-500/50"
    case Middle => "shadow-yellow-500/50"
    case Low => "shadow-red-500/50"
  }

  function Description(b: Band): string
  {
    match b
    case High => "Отлично! Глубокое понимание материала"
    case Middle => "Хорошо! Есть пространство для улучшения"
    case Low => "Требуется дополнительное изучение"
  }

  /** `getScoreColor` */
  function ScoreColor(score: real): (c: string)
    ensures c == TextColor(TenPointBand(score))
  {
    if score >= 8.0 then "text-green-600"
    else if score >= 6.0 then "text-yellow-600"
    else "text-red-600"
  }

  /** `getProgressColor` */
  function ProgressColor(score: real): (c: string)
    ensures c == Gradient(TenPointBand(score))
  {
    if score >= 8.0 then "from-green-500 to-emerald-500"
    else if score >= 6.0 then "from-yellow-500 to-orange-500"
    else "from-red-500 to-rose-500"
  }

  /** `getGlowColor` */
  function GlowColor(score: real): (c: string)
    ensures c == Glow(TenPointBand(score))
  {
    if score >= 8.0 then "shadow-green-500/50"
    else if score >= 6.0 then "shadow-yellow-500/50"
    else "shadow-red-500/50"
  }

  /** The three colour helpers always pick the same band: two scores get the same text colour
      exactly when they get the same bar gradient and the same glow. */
  lemma ColoursAgree(x: real, y: real)
    ensures ScoreColor(x) == ScoreColor(y) <==> TenPointBand(x) == TenPointBand(y)
    ensures ProgressColor(x) == ProgressColor(y) <==> TenPointBand(x) == TenPointBand(y)
    ensures GlowColor(x) == GlowColor(y) <==> TenPointBand(x) == TenPointBand(y)
  {
    // the colour names differ at their first letter
    assert TextColor(High)[5] == 'g' && TextColor(Middle)[5] == 'y' && TextColor(Low)[5] == 'r';
    assert Gradient(High)[5] == 'g' && Gradient(Middle)[5] == 'y' && Gradient(Low)[5] == 'r';
    assert Glow(High)[7] == 'g' && Glow(Middle)[7] == 'y' && Glow(Low)[7] == 'r';
  }

  /** The description paragraph: three conditional fragments, of which exactly one is shown. */
  function DescriptionLines(score: real): (lines: seq<string>)
    ensures |lines| == 1
    ensures lines[0] == Description(TenPointBand(score))
  {
    (if score >= 8.0 then ["Отлично! Глубокое понимание материала"] else [])
    + (if score >= 6.0 && score < 8.0 then ["Хорошо! Есть пространство для улучшения"] else [])
    + (if score < 6.0 then ["Требуется дополнительное изучение"] else [])
  }

  /** The letter grade. */
  function LetterGrade(score: real): (g: string)
    ensures g == "A" <==> score >= 90.0
    ensures g == "B" <==> 75.0 <= score < 90.0
    ensures g == "C" <==> 60.0 <= score < 75.0
    ensures g == "D" <==> score < 60.0
  {
    if score >= 90.0 then "A" else if score >= 75.0 then "B" else if score >= 60.0 then "C" else "D"
  }

  function GradeRank(g: string): nat
  {
    if g == "A" then 3 else if g == "B" then 2 else if g == "C" then 1 else 0
  }

  /** A higher score never gets a lower grade. */
  lemma GradeMonotone(x: real, y: real)
    requires x <= y
    ensures GradeRank(LetterGrade(x)) <= GradeRank(LetterGrade(y))
  {
  }

  /** The "до 100" figure: the whole points still missing to 100, counting a fractional
      point as missing; it stays within 0 to 100 for a score within 0 to 100. */
  function PointsToHundred(score: real): (r: int)
    ensures 100.0 - score <= r as real < 101.0 - score
    ensures 0.0 <= score <= 100.0 ==> 0 <= r <= 100
  {
    100 - score.Floor
  }

  /** The two scales disagree: every score from 8 up to (not including) 60 gets the top colour
      band and the top description, yet grade D and the lowest emoji and message. */
  lemma ScalesDisagree(score: real)
    requires 8.0 <= score < 60.0
    ensures ScoreColor(score) == "text-green-600"
    ensures DescriptionLines(score) == ["Отлично! Глубокое понимание материала"]
    ensures LetterGrade(score) == "D"
    ensures ResultsDisplay.ScoreEmoji(score) == "\U{1F4DA}"
    ensures ResultsDisplay.ScoreMessage(score) == "Требуется дополнительное изучение"
  {
    ResultsDisplay.TierOf(score);
  }
}
