/** Difficulty presets, round direction, inter-round delay and reaction score of the
    audio reaction game. Every function is pure: the random draws that the game takes
    from its random source are parameters here. */
module GameLogic {

  /** The four sound directions (the `Direction` union of the audio engine). */
  datatype Direction = Left | Right | Front | Back

  /** The three difficulty levels a session can be played at. */
  datatype Difficulty = Slow | Normal | Fast

  /** One row of the difficulty table; all three values are milliseconds. */
  datatype Preset = Preset(minDelay: int, maxDelay: int, reactionWindow: int)

  /** The directions in the order the game draws them from. */
  const DIRECTIONS: seq<Direction> := [Left, Right, Front, Back]

  /** A preset is usable: a positive delay range and a positive reaction window. */
  predicate ValidPreset(p: Preset)
  {
    0 < p.minDelay <= p.maxDelay && p.reactionWindow > 0
  }

  /** The difficulty table. */
  function Settings(d: Difficulty): (p: Preset)
    ensures ValidPreset(p)
    ensures p.minDelay < p.maxDelay
  {
    match d
    case Slow => Preset(3000, 5000, 3000)
    case Normal => Preset(2000, 4000, 2000)
    case Fast => Preset(1000, 2500, 1500)
  }

  /** A slower difficulty leaves at least as much time as a faster one, in every field. */
  predicate AtLeastAsLenient(a: Preset, b: Preset)
  {
    a.minDelay >= b.minDelay && a.maxDelay >= b.maxDelay && a.reactionWindow >= b.reactionWindow
  }

  lemma SettingsOrderedBySpeed()
    ensures AtLeastAsLenient(Settings(Slow), Settings(Normal))
    ensures AtLeastAsLenient(Settings(Normal), Settings(Fast))
  {
  }

  /** The directions list holds every direction exactly once. */
  lemma DirectionsListEachOnce()
    ensures |DIRECTIONS| == 4
    ensures forall d: Direction :: d in DIRECTIONS
    ensures forall i, j :: 0 <= i < j < |DIRECTIONS| ==> DIRECTIONS[i] != DIRECTIONS[j]
  {
    forall d: Direction ensures d in DIRECTIONS {
      match d
      case Left => assert DIRECTIONS[0] == d;
      case Right => assert DIRECTIONS[1] == d;
      case Front => assert DIRECTIONS[2] == d;
      case Back => assert DIRECTIONS[3] == d;
    }
  }

  /** `Math.max` on reals. */
  function MaxReal(a: real, b: real): (m: real)
    ensures m >= a && m >= b && (m == a || m == b)
  {
    if a >= b then a else b
  }

  // ---------------------------------------------------------------------------
  // Direction of a round
  // ---------------------------------------------------------------------------

  /** The index `floor(r * 4)` that a random fraction `r` selects. */
  function DirectionIndex(r: real): (i: int)
    requires 0.0 <= r < 1.0
    ensures 0 <= i < |DIRECTIONS|
    ensures i as real <= r * 4.0 < i as real + 1.0
  {
    (r * (|DIRECTIONS| as real)).Floor
  }

  /** The direction of a new round, for a random fraction `r` in [0, 1). */
  function GetRandomDirection(r: real): (d: Direction)
    requires 0.0 <= r < 1.0
    ensures d in DIRECTIONS
  {
    DIRECTIONS[DirectionIndex(r)]
  }

  /** Each direction owns exactly one quarter of [0, 1): the choice is uniform for a
      uniform `r`, and every direction can come up. */
  lemma GetRandomDirectionQuarter(r: real, i: int)
    requires 0.0 <= r < 1.0
    requires 0 <= i < |DIRECTIONS|
    ensures GetRandomDirection(r) == DIRECTIONS[i] <==> i as real / 4.0 <= r < (i + 1) as real / 4.0
  {
    var k := DirectionIndex(r);
    DirectionsListEachOnce();
    if GetRandomDirection(r) == DIRECTIONS[i] {
      assert k == i;
    } else {
      assert k != i;
      if i < k {
        assert (i + 1) as real <= k as real;
      } else {
        assert (k + 1) as real <= i as real;
      }
    }
  }

  // ---------------------------------------------------------------------------
  // Delay before the next round
  // ---------------------------------------------------------------------------

  /** The speed-up factor `max(0.5, 1 - 0.05 * level)`. */
  function LevelModifier(level: int): (m: real)
    ensures m >= 0.5
    ensures level >= 10 ==> m == 0.5
    ensures level >= 0 ==> m <= 1.0
    ensures level < 10 ==> m == 1.0 - level as real * 0.05
  {
    MaxReal(0.5, 1.0 - level as real * 0.05)
  }

  lemma LevelModifierNonIncreasing(l1: int, l2: int)
    requires l1 <= l2
    ensures LevelModifier(l2) <= LevelModifier(l1)
  {
  }

  /** Scaling by a non-negative amount keeps the order of two factors. */
  lemma ScaleMonotone(a: real, x: real, y: real)
    requires a >= 0.0 && x <= y
    ensures a * x <= a * y
  {
    assert a * (y - x) == a * y - a * x;
    assert a * (y - x) >= 0.0;
  }

  /** Two products of one non-negative amount are ordered like their other factors. */
  lemma OrderedProducts(b: real, m1: real, m2: real, x1: real, x2: real)
    requires b >= 0.0 && m2 <= m1
    requires x1 == b * m1 && x2 == b * m2
    ensures x2 <= x1
  {
    ScaleMonotone(b, m2, m1);
  }

  /** A value in [lo, hi) scaled by a factor in [0.5, 1] lies in [lo / 2, hi). */
  lemma ScaleByModifier(b: real, m: real, lo: real, hi: real)
    requires 0.0 < lo <= b < hi && 0.5 <= m <= 1.0
    ensures 0.5 * lo <= b * m < hi
  {
    ScaleMonotone(b, 0.5, m);
    ScaleMonotone(b, m, 1.0);
  }

  /** The base delay `minDelay + (maxDelay - minDelay) * r`. */
  function BaseDelay(p: Preset, r: real): (b: real)
    ensures r == 0.0 ==> b == p.minDelay as real
  {
    p.minDelay as real + (p.maxDelay - p.minDelay) as real * r
  }

  /** For `r` in [0, 1) the base delay lies in [minDelay, maxDelay). */
  lemma BaseDelayInRange(d: Difficulty, r: real)
    requires 0.0 <= r < 1.0
    ensures Settings(d).minDelay as real <= BaseDelay(Settings(d), r) < Settings(d).maxDelay as real
  {
    match d
    case Slow => assert BaseDelay(Settings(d), r) == 3000.0 + 2000.0 * r;
    case Normal => assert BaseDelay(Settings(d), r) == 2000.0 + 2000.0 * r;
    case Fast => assert BaseDelay(Settings(d), r) == 1000.0 + 1500.0 * r;
  }

  /** The delay before the next round, for a level and a random fraction `r`. */
  function GetDelayForLevel(level: int, d: Difficulty, r: real): (delay: real)
    ensures level == 0 ==> delay == BaseDelay(Settings(d), r)
    ensures level >= 10 ==> delay == 0.5 * BaseDelay(Settings(d), r)
  {
    BaseDelay(Settings(d), r) * LevelModifier(level)
  }

  /** For `r` in [0, 1) and a level of at least 0 the delay lies in
      [minDelay / 2, maxDelay). */
  lemma GetDelayForLevelInRange(level: int, d: Difficulty, r: real)
    requires 0.0 <= r < 1.0 && level >= 0
    ensures 0.5 * Settings(d).minDelay as real <= GetDelayForLevel(level, d, r) < Settings(d).maxDelay as real
  {
    BaseDelayInRange(d, r);
    ScaleByModifier(BaseDelay(Settings(d), r), LevelModifier(level),
                    Settings(d).minDelay as real, Settings(d).maxDelay as real);
  }

  /** For one random draw, a higher level never lengthens the delay. */
  lemma DelayNonIncreasingInLevel(l1: int, l2: int, d: Difficulty, r: real)
    requires 0.0 <= r < 1.0
    requires l1 <= l2
    ensures GetDelayForLevel(l2, d, r) <= GetDelayForLevel(l1, d, r)
  {
    BaseDelayInRange(d, r);
    LevelModifierNonIncreasing(l1, l2);
    OrderedProducts(BaseDelay(Settings(d), r), LevelModifier(l1), LevelModifier(l2),
                    GetDelayForLevel(l1, d, r), GetDelayForLevel(l2, d, r));
  }

  // ---------------------------------------------------------------------------
  // Score of a correct tap
  // ---------------------------------------------------------------------------

  /** Points for a correct tap: `floor(100 * max(0, 1 - reactionTime / reactionWindow))`. */
  function CalculateScore(reactionTime: int, d: Difficulty): (points: int)
    ensures points >= 0
    ensures reactionTime >= Settings(d).reactionWindow ==> points == 0
    ensures reactionTime == 0 ==> points == 100
    ensures reactionTime >= 0 ==> points <= 100
  {
    var w := Settings(d).reactionWindow as real;
    (100.0 * MaxReal(0.0, 1.0 - reactionTime as real / w)).Floor
  }

  /** The same score in exact integer arithmetic. */
  function ScoreExact(reactionTime: int, window: int): (points: int)
    requires window > 0
  {
    if reactionTime >= window then 0 else (100 * (window - reactionTime)) / window
  }

  lemma FloorOfQuotient(p: int, q: int)
    requires q > 0
    ensures (p as real / q as real).Floor == p / q
  {
    var k, m := p / q, p % q;
    assert p == k * q + m;
    assert p as real == k as real * q as real + m as real;
    assert p as real / q as real == k as real + m as real / q as real;
  }

  lemma CalculateScoreIsExact(reactionTime: int, d: Difficulty)
    ensures CalculateScore(reactionTime, d) == ScoreExact(reactionTime, Settings(d).reactionWindow)
  {
    var w := Settings(d).reactionWindow;
    if reactionTime < w {
      assert 100.0 * (1.0 - reactionTime as real / w as real) == (100 * (w - reactionTime)) as real / w as real;
      FloorOfQuotient(100 * (w - reactionTime), w);
    }
  }

  /** A slower reaction never earns more points. */
  lemma CalculateScoreNonIncreasing(rt1: int, rt2: int, d: Difficulty)
    requires rt1 <= rt2
    ensures CalculateScore(rt2, d) <= CalculateScore(rt1, d)
  {
    var w := Settings(d).reactionWindow as real;
    assert MaxReal(0.0, 1.0 - rt2 as real / w) <= MaxReal(0.0, 1.0 - rt1 as real / w);
  }

  /** For the same reaction, a more lenient difficulty never awards fewer points. */
  lemma CalculateScoreRewardsLenience(rt: int)
    requires rt >= 0
    ensures CalculateScore(rt, Fast) <= CalculateScore(rt, Normal) <= CalculateScore(rt, Slow)
  {
    assert rt as real / 3000.0 <= rt as real / 2000.0 <= rt as real / 1500.0;
  }
}
