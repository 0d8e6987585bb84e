/**
 * The emoji and the message of the result screen (src/app/components/ResultsDisplay.tsx).
 * Their thresholds, 60 to 90, presuppose scores on a 0–100 scale.
 */
module ResultsDisplay {

  /** The thresholds of the five result bands, lowest first. */
  const Thresholds: seq<real> := [60.0, 70.0, 80.0, 90.0]

  /** The emoji of each band, from the lowest band (tier 0) to the highest (tier 4). */
  const Emojis: seq<string> := ["\U{1F4DA}", "\U{1F4DD}", "\U{1F44D}", "\U{1F31F}", "\U{1F389}"]

  /** The message of each band, from the lowest band to the highest. */
  const Messages: seq<string> := [
    "Требуется дополнительное изучение",
    "Необходимо углубить знания",
    "Удовлетворительное понимание",
    "Хорошее понимание материала",
    "Отличное понимание темы!"]

  /** How many of `thresholds` the score reaches. */
  function Reached(thresholds: seq<real>, score: real): (n: nat)
    ensures n <= |thresholds|
  {
    if thresholds == [] then 0
    else (if score >= thresholds[0] then 1 else 0) + Reached(thresholds[1..], score)
  }

  /** The band of a score: the number of thresholds it reaches, 0 to 4. */
  function Tier(score: real): (t: nat)
    ensures t < 5
  {
    Reached(Thresholds, score)
  }

  lemma TierOf(score: real)
    ensures score >= 90.0 ==> Tier(score) == 4
    ensures 80.0 <= score < 90.0 ==> Tier(score) == 3
    ensures 70.0 <= score < 80.0 ==> Tier(score) == 2
    ensures 60.0 <= score < 70.0 ==> Tier(score) == 1
    ensures score < 60.0 ==> Tier(score) == 0
  {
    var t1, t2, t3, t4 := [90.0], [80.0, 90.0], [70.0, 80.0, 90.0], Thresholds;
    assert t1[1..] == [] && t2[1..] == t1 && t3[1..] == t2 && t4[1..] == t3;
    var r1 := Reached(t1, score);
    var r2 := Reached(t2, score);
    var r3 := Reached(t3, score);
    assert r1 == if score >= 90.0 then 1 else 0;
    assert r2 == (if score >= 80.0 then 1 else 0) + r1;
    assert r3 == (if score >= 70.0 then 1 else 0) + r2;
    assert Tier(score) == (if score >= 60.0 then 1 else 0) + r3;
  }

  /** `getScoreEmoji` */
  function ScoreEmoji(score: real): (e: string)
    ensures e == Emojis[Tier(score)]
  {
    TierOf(score);
    if score >= 90.0 then "\U{1F389}"
    else if score >= 80.0 then "\U{1F31F}"
    else if score >= 70.0 then "\U{1F44D}"
    else if score >= 60.0 then "\U{1F4DD}"
    else "\U{1F4DA}"
  }

  /** `getScoreMessage` */
  function ScoreMessage(score: real): (m: string)
    ensures m == Messages[Tier(score)]
  {
    TierOf(score);
    if score >= 90.0 then "Отличное понимание темы!"
    else if score >= 80.0 then "Хорошее понимание материала"
    else if score >= 70.0 then "Удовлетворительное понимание"
    else if score >= 60.0 then "Необходимо углубить знания"
    else "Требуется дополнительное изучение"
  }

  lemma {:induction false} ReachedMonotone(thresholds: seq<real>, x: real, y: real)
    requires x <= y
    ensures Reached(thresholds, x) <= Reached(thresholds, y)
  {
    if thresholds != [] {
      ReachedMonotone(thresholds[1..], x, y);
    }
  }

  /** A higher score never lands in a lower band. */
  lemma TierMonotone(x: real, y: real)
    requires x <= y
    ensures Tier(x) <= Tier(y)
  {
    ReachedMonotone(Thresholds, x, y);
  }

  /** The emoji and the message always come from the same band: two scores share an emoji
      exactly when they share a message, and exactly when they are in the same band. */
  lemma EmojiAndMessageAgree(x: real, y: real)
    ensures ScoreEmoji(x) == ScoreEmoji(y) <==> Tier(x) == Tier(y)
    ensures ScoreMessage(x) == ScoreMessage(y) <==> Tier(x) == Tier(y)
  {
    var ex, ey := Emojis[Tier(x)], Emojis[Tier(y)];
    var mx, my := Messages[Tier(x)], Messages[Tier(y)];
    assert forall i, j :: 0 <= i < j < 5 ==> Emojis[i] != Emojis[j] && Messages[i] != Messages[j] by {
      forall i, j | 0 <= i < j < 5 ensures Emojis[i] != Emojis[j] && Messages[i] != Messages[j] {
        assert Emojis[i][0] != Emojis[j][0];
        assert Messages[i] != Messages[j] by {
          if i == 0 { assert Messages[i][0] == 'Т'; assert Messages[j][0] != 'Т'; }
          else if i == 1 { assert Messages[i][0] == 'Н'; assert Messages[j][0] != 'Н'; }
          else if i == 2 { assert Messages[i][0] == 'У'; assert Messages[j][0] != 'У'; }
          else { assert Messages[i][0] == 'Х'; assert Messages[j][0] != 'Х'; }
        }
      }
    }
  }
}
