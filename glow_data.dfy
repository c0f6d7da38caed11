/**
 * The mock score generator and the tip and roast pickers (mocks/glowData.ts).
 * Every Math.random() call is an injected draw in [0, 1); the shuffle of the
 * tip pool is an arbitrary permutation of its indices.
 */
module GlowData {
  import opened Types
  import opened Js

  /** TIPS_POOL: twelve tips with ids "1" to "12". */
  const TipsPool: seq<Tip> := [
    Tip("1", Pose, "Try tilting your chin slightly down for a more defined jawline!", "📐"),
    Tip("2", Pose, "The 3/4 angle is your friend - show that profile!", "🎯"),
    Tip("3", Lighting, "Golden hour lighting would make you absolutely glow!", "🌅"),
    Tip("4", Lighting, "Try facing a window for that natural soft light ✨", "💡"),
    Tip("5", Style, "A pop of color near your face draws attention!", "🎨"),
    Tip("6", Style, "Accessories can level up any selfie game!", "💎"),
    Tip("7", Expression, "That genuine smile is your superpower - use it!", "😊"),
    Tip("8", Expression, "Smize! Smile with your eyes for extra charm", "👁️"),
    Tip("9", Pose, "Relax those shoulders - confidence is key!", "💪"),
    Tip("10", Lighting, "Avoid harsh overhead lights - they create shadows", "🚫"),
    Tip("11", Style, "Messy hair? Call it \"effortlessly chic\"!", "💇"),
    Tip("12", Expression, "Think of something funny right before the shot!", "😂")
  ]

  /** ROASTS: twelve compliments. */
  const Roasts: seq<string> := [
    "You're giving main character energy! 🌟",
    "The algorithm could never compete with this face! 🔥",
    "Serving looks and taking names! 💅",
    "This selfie just broke the internet (in a good way)! 📱",
    "Even your phone is blushing from this pic! 😊",
    "You woke up like this? Unfair advantage! 😴",
    "Someone call a firefighter because this pic is FIRE! 🚒",
    "This is the face of someone who knows their angles! 📐",
    "Beauty gurus are taking notes rn! 📝",
    "The camera said: I'm obsessed! 📸",
    "Plot twist: you're the beauty standard now! 👑",
    "This pic has more glow than my skincare routine! ✨"
  ]

  lemma PoolIdsDistinct()
    ensures |TipsPool| == 12
    ensures forall i, j :: 0 <= i < j < |TipsPool| ==> TipsPool[i].id != TipsPool[j].id
  {
  }

  // ---------------------------------------------------------------------
  // generateMockScore
  // ---------------------------------------------------------------------

  /** A value Math.random() can return. */
  predicate IsRandom(r: real) {
    0.0 <= r < 1.0
  }

  /** The five Math.random() results one call consumes, in evaluation order. */
  datatype ScoreDraw = ScoreDraw(base: real, smile: real, lighting: real, style: real, vibe: real)

  predicate ValidDraw(d: ScoreDraw) {
    IsRandom(d.base) && IsRandom(d.smile) && IsRandom(d.lighting) && IsRandom(d.style) && IsRandom(d.vibe)
  }

  /** Math.random() * 3 + 6.5 */
  function BaseScore(r: real): (b: real)
    ensures IsRandom(r) ==> 6.5 <= b < 9.5
  {
    r * 3.0 + 6.5
  }

  /** (Math.random() - 0.5) * 1.5 */
  function Variance(r: real): (v: real)
    ensures IsRandom(r) ==> -0.75 <= v < 0.75
  {
    (r - 0.5) * 1.5
  }

  /** Math.min(10, Math.max(5, x)) */
  function ClampScore(x: real): (c: real)
    ensures 5.0 <= c <= 10.0
    ensures 5.0 <= x <= 10.0 ==> c == x
    ensures x < 5.0 ==> c == 5.0
    ensures 10.0 < x ==> c == 10.0
  {
    Min(10.0, Max(5.0, x))
  }

  /** The breakdown before rounding: each category perturbs the base and is clamped. */
  function ClampedBreakdown(d: ScoreDraw): ScoreBreakdown {
    var base := BaseScore(d.base);
    ScoreBreakdown(
      ClampScore(base + Variance(d.smile)),
      ClampScore(base + Variance(d.lighting)),
      ClampScore(base + Variance(d.style)),
      ClampScore(base + Variance(d.vibe)))
  }

  function RoundBreakdown(b: ScoreBreakdown): ScoreBreakdown {
    ScoreBreakdown(Round1(b.smile), Round1(b.lighting), Round1(b.style), Round1(b.vibe))
  }

  datatype MockScore = MockScore(score: real, breakdown: ScoreBreakdown)

  /**
   * generateMockScore: the overall score is the rounded mean of the clamped
   * but UNROUNDED categories; the categories are rounded separately.
   */
  function GenerateMockScore(d: ScoreDraw): (m: MockScore)
    ensures GeneratedBreakdown(m.breakdown) && GeneratedField(m.score)
  {
    var clamped := ClampedBreakdown(d);
    RoundBreakdownInRange(d);
    FiveAndTenAreTenths();
    Round1Within(Mean(clamped), 5.0, 10.0);
    Round1IsTenths(Mean(clamped));
    MockScore(Round1(Mean(clamped)), RoundBreakdown(clamped))
  }

  /** A sub-score as the generators produce it: in [5, 10] with one decimal. */
  predicate GeneratedField(x: real) {
    5.0 <= x <= 10.0 && IsTenths(x)
  }

  predicate GeneratedBreakdown(b: ScoreBreakdown) {
    GeneratedField(b.smile) && GeneratedField(b.lighting) && GeneratedField(b.style) && GeneratedField(b.vibe)
  }

  lemma FiveAndTenAreTenths()
    ensures IsTenths(5.0) && IsTenths(10.0)
  {
    FloorUnique(50.0, 50);
    FloorUnique(100.0, 100);
  }

  /** Rounding a clamped value keeps it in [5, 10] and leaves one decimal. */
  lemma RoundedClampInRange(x: real)
    ensures GeneratedField(Round1(ClampScore(x)))
  {
    FiveAndTenAreTenths();
    Round1Within(ClampScore(x), 5.0, 10.0);
    Round1IsTenths(ClampScore(x));
  }

  lemma {:induction false} RoundBreakdownInRange(d: ScoreDraw)
    ensures GeneratedBreakdown(RoundBreakdown(ClampedBreakdown(d)))
  {
    var base := BaseScore(d.base);
    RoundedClampInRange(base + Variance(d.smile));
    RoundedClampInRange(base + Variance(d.lighting));
    RoundedClampInRange(base + Variance(d.style));
    RoundedClampInRange(base + Variance(d.vibe));
  }

  /** With genuine draws no category falls below 5.75, so the lower clamp never fires. */
  lemma LowerClampInactive(d: ScoreDraw)
    requires ValidDraw(d)
    ensures forall r :: IsRandom(r) ==> 5.75 <= BaseScore(d.base) + Variance(r) < 10.25
  {
  }

  /**
   * Every category of a generated score lies in [5, 10] with one decimal, and
   * so does the overall score; with genuine draws the score is at least 5.8.
   */
  lemma {:induction false} GeneratedScoreInRange(d: ScoreDraw)
    ensures GeneratedBreakdown(GenerateMockScore(d).breakdown)
    ensures GeneratedField(GenerateMockScore(d).score)
    ensures ValidDraw(d) ==> 5.8 <= GenerateMockScore(d).score
  {
    RoundBreakdownInRange(d);
    var mean := Mean(ClampedBreakdown(d));
    FiveAndTenAreTenths();
    Round1Within(mean, 5.0, 10.0);
    Round1IsTenths(mean);
    if ValidDraw(d) {
      LowerClampInactive(d);
      Round1Monotone(5.75, mean);
      FloorUnique(10.0 * 5.75 + 0.5, 58);
    }
  }

  /**
   * The overall score is within one tenth of the rounded mean of the rounded
   * categories, the rule getMockScore follows.
   */
  lemma {:induction false} GeneratedScoreNearRoundedMean(d: ScoreDraw)
    ensures var m := GenerateMockScore(d);
      m.score - 0.1 <= Round1(Mean(m.breakdown)) <= m.score + 0.1
  {
    var clamped := ClampedBreakdown(d);
    var rounded := RoundBreakdown(clamped);
    assert Mean(clamped) - 0.05 <= Mean(rounded) <= Mean(clamped) + 0.05;
    Round1Close(Mean(clamped), Mean(rounded));
  }

  /**
   * ... but not always equal to it: categories 6.05, 6.05, 6.04, 6.04 give
   * score 6.0, while their rounded values 6.1, 6.1, 6.0, 6.0 average to 6.05,
   * which rounds to 6.1.
   */
  lemma GeneratedScoreCanMissRoundedMean()
    ensures var d := ScoreDraw(0.0, 0.2, 0.2, 29.0 / 150.0, 29.0 / 150.0);
      ValidDraw(d) && GenerateMockScore(d).score != Round1(Mean(GenerateMockScore(d).breakdown))
  {
    var d := ScoreDraw(0.0, 0.2, 0.2, 29.0 / 150.0, 29.0 / 150.0);
    var clamped := ClampedBreakdown(d);
    assert clamped == ScoreBreakdown(6.05, 6.05, 6.04, 6.04);
    FloorUnique(10.0 * 6.045 + 0.5, 60);
    FloorUnique(10.0 * 6.05 + 0.5, 61);
    FloorUnique(10.0 * 6.04 + 0.5, 60);
    assert GenerateMockScore(d) == MockScore(6.0, ScoreBreakdown(6.1, 6.1, 6.0, 6.0));
  }

  // ---------------------------------------------------------------------
  // getRandomTips and getRandomRoast
  // ---------------------------------------------------------------------

  /** `perm` lists every index below n exactly once: the order sort() leaves. */
  predicate IsPermutation(perm: seq<int>, n: nat) {
    && |perm| == n
    && (forall i :: 0 <= i < n ==> 0 <= perm[i] < n)
    && (forall i, j :: 0 <= i < j < n ==> perm[i] != perm[j])
  }

  /** The shuffled copy of the pool; the pool itself is a value and stays as it is. */
  function Shuffled(perm: seq<int>): (s: seq<Tip>)
    requires IsPermutation(perm, |TipsPool|)
  {
    seq(|TipsPool|, i requires 0 <= i < |TipsPool| => TipsPool[perm[i]])
  }

  /**
   * getRandomTips(count): the first `count` tips of a shuffled copy of the
   * pool: as many as slice(0, count) keeps, all from the pool, no id twice.
   */
  function GetRandomTips(count: int, perm: seq<int>): (tips: seq<Tip>)
    requires IsPermutation(perm, |TipsPool|)
    ensures |tips| == SliceEnd(|TipsPool|, count)
    ensures forall k :: 0 <= k < |tips| ==> tips[k] in TipsPool
    ensures forall a, b :: 0 <= a < b < |tips| ==> tips[a].id != tips[b].id
  {
    PoolIdsDistinct();
    var shuffled := Shuffled(perm);
    assert forall a, b :: 0 <= a < b < |shuffled| ==> shuffled[a].id != shuffled[b].id by {
      forall a, b | 0 <= a < b < |shuffled|
        ensures shuffled[a].id != shuffled[b].id
      {
        if perm[a] < perm[b] {
          assert TipsPool[perm[a]].id != TipsPool[perm[b]].id;
        } else {
          assert TipsPool[perm[b]].id != TipsPool[perm[a]].id;
        }
      }
    }
    shuffled[..SliceEnd(|TipsPool|, count)]
  }

  /** The default call getRandomTips(3) yields three tips with distinct ids. */
  lemma DefaultTipsAreThreeDistinct(perm: seq<int>)
    requires IsPermutation(perm, |TipsPool|)
    ensures var tips := GetRandomTips(3, perm);
      |tips| == 3 && tips[0].id != tips[1].id && tips[0].id != tips[2].id && tips[1].id != tips[2].id
  {
    PoolIdsDistinct();
  }

  /** Renumber the values above x one lower, closing the gap x leaves. */
  function Squeeze(p: seq<int>, x: int): (q: seq<int>)
    ensures |q| == |p|
  {
    seq(|p|, i requires 0 <= i < |p| => if p[i] > x then p[i] - 1 else p[i])
  }

  /** Pigeonhole: k slots hold at most k distinct values. */
  lemma {:induction false} DistinctValuesBounded(p: seq<int>, k: nat)
    requires forall i :: 0 <= i < |p| ==> 0 <= p[i] < k
    requires forall i, j :: 0 <= i < j < |p| ==> p[i] != p[j]
    ensures |p| <= k
    decreases |p|
  {
    if |p| > 0 {
      var x := p[|p| - 1];
      var rest := p[..|p| - 1];
      var q := Squeeze(rest, x);
      assert forall i :: 0 <= i < |q| ==> 0 <= q[i] < k - 1;
      DistinctValuesBounded(q, k - 1);
    }
  }

  /** A permutation of the indices below n takes every one of them. */
  lemma PermutationCovers(perm: seq<int>, n: nat, v: int)
    requires IsPermutation(perm, n)
    requires 0 <= v < n
    ensures v in perm
  {
    if v !in perm {
      var q := Squeeze(perm, v);
      assert forall i :: 0 <= i < |q| ==> 0 <= q[i] < n - 1 by {
        forall i | 0 <= i < |q| ensures 0 <= q[i] < n - 1 {
          assert perm[i] != v;
        }
      }
      DistinctValuesBounded(q, n - 1);
    }
  }

  /** Asking for the whole pool returns every tip of it, each exactly once. */
  lemma FullShuffleCoversPool(count: int, perm: seq<int>)
    requires IsPermutation(perm, |TipsPool|)
    requires count >= |TipsPool|
    ensures forall t :: t in TipsPool ==> t in GetRandomTips(count, perm)
  {
    var tips := GetRandomTips(count, perm);
    forall t | t in TipsPool ensures t in tips {
      var v :| 0 <= v < |TipsPool| && TipsPool[v] == t;
      PermutationCovers(perm, |TipsPool|, v);
      var i :| 0 <= i < |perm| && perm[i] == v;
      assert tips[i] == t;
    }
  }

  /** Math.floor(Math.random() * ROASTS.length) */
  function RoastIndex(r: real): (k: nat)
    requires IsRandom(r)
    ensures k < |Roasts|
    ensures k as real <= r * 12.0 < k as real + 1.0
  {
    FloorBounds(r * 12.0);
    (r * (|Roasts| as real)).Floor
  }

  /**
   * getRandomRoast: the draw r picks roast k exactly when k <= 12 r < k + 1,
   * so each of the twelve roasts gets an equal share of [0, 1).
   */
  function GetRandomRoast(r: real): (roast: string)
    requires IsRandom(r)
    ensures roast in Roasts
    ensures forall k :: 0 <= k < |Roasts| && k as real <= r * 12.0 < k as real + 1.0 ==> roast == Roasts[k]
  {
    var k := RoastIndex(r);
    Roasts[k]
  }

  /** Every roast can come up: the draw k / 12 picks roast k. */
  lemma EveryRoastReachable(k: nat)
    requires k < |Roasts|
    ensures IsRandom(k as real / 12.0) && GetRandomRoast(k as real / 12.0) == Roasts[k]
  {
  }
}
