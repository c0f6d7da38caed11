/**
 * The score classifiers of the results screen (app/results.tsx): the emoji
 * and the headline chosen for a score, the celebration threshold and the
 * width of a breakdown bar.
 */
module Results {
  import opened GlowData

  /** The cut-points shared by both classifiers, lowest first. */
  const BandCuts: seq<real> := [6.0, 7.0, 8.0, 9.0, 9.5]

  /** How many of the cut-points the score has reached. */
  function CutsReached(cuts: seq<real>, score: real): (n: nat)
    ensures n <= |cuts|
  {
    if cuts == [] then 0
    else (if cuts[0] <= score then 1 else 0) + CutsReached(cuts[1..], score)
  }

  /** The band of a score: 0 below 6 up to 5 from 9.5 on. */
  function Band(score: real): (b: nat)
    ensures b <= 5
  {
    CutsReached(BandCuts, score)
  }

  /** Each band is the half-open interval between two consecutive cut-points. */
  lemma {:induction false} BandIntervals(score: real)
    ensures score < 6.0 ==> Band(score) == 0
    ensures 6.0 <= score < 7.0 ==> Band(score) == 1
    ensures 7.0 <= score < 8.0 ==> Band(score) == 2
    ensures 8.0 <= score < 9.0 ==> Band(score) == 3
    ensures 9.0 <= score < 9.5 ==> Band(score) == 4
    ensures 9.5 <= score ==> Band(score) == 5
  {
    var one := if 9.5 <= score then 1 else 0;
    assert CutsReached([9.5], score) == one by {
      assert [9.5][1..] == [];
    }
    var two := one + if 9.0 <= score then 1 else 0;
    assert CutsReached([9.0, 9.5], score) == two by {
      assert [9.0, 9.5][1..] == [9.5];
    }
    var three := two + if 8.0 <= score then 1 else 0;
    assert CutsReached([8.0, 9.0, 9.5], score) == three by {
      assert [8.0, 9.0, 9.5][1..] == [9.0, 9.5];
    }
    var four := three + if 7.0 <= score then 1 else 0;
    assert CutsReached([7.0, 8.0, 9.0, 9.5], score) == four by {
      assert [7.0, 8.0, 9.0, 9.5][1..] == [8.0, 9.0, 9.5];
    }
    assert BandCuts[1..] == [7.0, 8.0, 9.0, 9.5];
    assert Band(score) == four + if 6.0 <= score then 1 else 0;
  }

  const BandEmojis: seq<string> := ["💪", "🌟", "💫", "✨", "🔥", "👑"]

  const BandMessages: seq<string> :=
    ["Keep Glowing!", "Nice Glow!", "Solid Vibes!", "Looking Amazing!", "ABSOLUTELY FIRE!", "LEGENDARY GLOW!"]

  /** getScoreEmoji: the first threshold the score reaches, from the top. */
  function ScoreEmoji(score: real): (e: string)
    ensures e == BandEmojis[Band(score)]
  {
    BandIntervals(score);
    if score >= 9.5 then "👑"
    else if score >= 9.0 then "🔥"
    else if score >= 8.0 then "✨"
    else if score >= 7.0 then "💫"
    else if score >= 6.0 then "🌟"
    else "💪"
  }

  /** getScoreMessage: the same thresholds as getScoreEmoji. */
  function ScoreMessage(score: real): (m: string)
    ensures m == BandMessages[Band(score)]
  {
    BandIntervals(score);
    if score >= 9.5 then "LEGENDARY GLOW!"
    else if score >= 9.0 then "ABSOLUTELY FIRE!"
    else if score >= 8.0 then "Looking Amazing!"
    else if score >= 7.0 then "Solid Vibes!"
    else if score >= 6.0 then "Nice Glow!"
    else "Keep Glowing!"
  }

  /** A higher score never lands in a lower band. */
  lemma {:induction false} CutsReachedMonotone(cuts: seq<real>, x: real, y: real)
    requires x <= y
    ensures CutsReached(cuts, x) <= CutsReached(cuts, y)
  {
    if cuts != [] {
      CutsReachedMonotone(cuts[1..], x, y);
    }
  }

  lemma BandMonotone(x: real, y: real)
    requires x <= y
    ensures Band(x) <= Band(y)
  {
    CutsReachedMonotone(BandCuts, x, y);
  }

  /** The emoji shown determines the headline: both come from one band. */
  lemma EmojiDeterminesMessage(x: real, y: real)
    requires ScoreEmoji(x) == ScoreEmoji(y)
    ensures Band(x) == Band(y)
    ensures ScoreMessage(x) == ScoreMessage(y)
  {
  }

  /** The confetti and the success haptic fire when `currentScan.score >= 8`. */
  predicate Celebrates(score: real)
    ensures Celebrates(score) <==> Band(score) >= 3
  {
    BandIntervals(score);
    score >= 8.0
  }

  /** ... which is exactly the three top bands, the ones headed "Looking Amazing!" and above. */
  lemma CelebratesInTopBands(score: real)
    ensures Celebrates(score) <==> ScoreMessage(score) in BandMessages[3..]
  {
    BandIntervals(score);
  }

  /** The bar's width as a percentage: `${item.value * 10}%`. */
  function BarWidth(value: real): (w: real)
    ensures 0.0 <= value <= 10.0 ==> 0.0 <= w <= 100.0
    ensures value == 10.0 ==> w == 100.0
  {
    value * 10.0
  }

  /** A generated category fills between half and all of its bar. */
  lemma GeneratedBarWidth(b: real)
    requires GeneratedField(b)
    ensures 50.0 <= BarWidth(b) <= 100.0
  {
  }
}
