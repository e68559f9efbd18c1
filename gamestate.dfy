/** The game-session record of the game hook and its four transitions (start, next
    round, stop, tap), each a copy of the previous record with a few fields replaced. */
module GameSession {
  import opened GameLogic

  datatype Option<T> = None | Some(value: T)

  /** The session record. `currentDirection` is the pending target, `None` for no round. */
  datatype GameState = GameState(
    level: int,
    score: int,
    currentDirection: Option<Direction>,
    isPlaying: bool,
    reactionTime: int,
    difficulty: Difficulty)

  /** Points needed per level. */
  const POINTS_PER_LEVEL: int := 500

  /** The level a score belongs to: `floor(score / 500) + 1`. */
  function LevelForScore(score: int): (level: int)
    ensures (level - 1) * POINTS_PER_LEVEL <= score < level * POINTS_PER_LEVEL
    ensures score >= 0 ==> level >= 1
  {
    score / POINTS_PER_LEVEL + 1
  }

  lemma LevelForScoreMonotone(a: int, b: int)
    requires a <= b
    ensures LevelForScore(a) <= LevelForScore(b)
  {
  }

  /** What every reachable record satisfies: a non-negative score and the level that
      belongs to it. */
  predicate Consistent(s: GameState)
  {
    s.score >= 0 && s.level == LevelForScore(s.score)
  }

  /** The record a fresh hook starts from, for the hook's difficulty argument. */
  function InitialState(d: Difficulty): (s: GameState)
    ensures Consistent(s) && s.level == 1 && s.score == 0
    ensures !s.isPlaying && s.currentDirection == None
    ensures s.reactionTime == 0 && s.difficulty == d
  {
    GameState(1, 0, None, false, 0, d)
  }

  /** Starting a game: playing, score and level back to their initial values. */
  function StartGame(s: GameState): (t: GameState)
    ensures t.isPlaying && t.score == 0 && t.level == 1 && Consistent(t)
    ensures t.currentDirection == s.currentDirection && t.reactionTime == s.reactionTime
    ensures t.difficulty == s.difficulty
  {
    s.(isPlaying := true, score := 0, level := 1)
  }

  /** A new round: the drawn direction becomes the pending target; nothing else changes. */
  function PlayNextRound(s: GameState, d: Direction): (t: GameState)
    ensures t.currentDirection == Some(d)
    ensures t.(currentDirection := s.currentDirection) == s
    ensures Consistent(s) ==> Consistent(t)
  {
    s.(currentDirection := Some(d))
  }

  /** Stopping: not playing, no pending target; score, level, reaction time and
      difficulty are kept. */
  function StopGame(s: GameState): (t: GameState)
    ensures !t.isPlaying && t.currentDirection == None
    ensures t.score == s.score && t.level == s.level
    ensures t.reactionTime == s.reactionTime && t.difficulty == s.difficulty
    ensures Consistent(s) ==> Consistent(t)
  {
    s.(isPlaying := false, currentDirection := None)
  }

  /** What the player is told about a tap: nothing (ignored), "Wrong direction", or
      "Correct", followed by a level announcement when the level went up. */
  datatype Feedback = Ignored | WrongDirection | Correct(levelUp: bool)

  datatype TapOutcome = TapOutcome(state: GameState, feedback: Feedback)

  /** A tap is looked at only while playing with a pending target. */
  predicate Active(s: GameState)
  {
    s.isPlaying && s.currentDirection.Some?
  }

  /** A tap on `tapped`, `reactionTime` ms after the sound, scored at `difficulty` (the
      hook's argument, which is what the score uses, not the record's field). */
  function HandleTap(s: GameState, tapped: Direction, reactionTime: int, difficulty: Difficulty): (o: TapOutcome)
    // inactive: ignored, record unchanged
    ensures !Active(s) ==> o == TapOutcome(s, Ignored)
    // wrong direction: record unchanged
    ensures Active(s) && s.currentDirection != Some(tapped) ==> o == TapOutcome(s, WrongDirection)
    // right direction: points added, level follows the new score, reaction time recorded
    ensures Active(s) && s.currentDirection == Some(tapped) ==>
      && o.feedback.Correct?
      && o.state.score == s.score + CalculateScore(reactionTime, difficulty)
      && o.state.level == LevelForScore(o.state.score)
      && o.state.reactionTime == reactionTime
      && o.state.currentDirection == s.currentDirection
      && o.state.isPlaying && o.state.difficulty == s.difficulty
      && (o.feedback.levelUp <==> o.state.level > s.level)
    // no tap ever lowers the score, and consistency is kept
    ensures o.state.score >= s.score
    ensures Consistent(s) ==> Consistent(o.state)
  {
    if !Active(s) then
      TapOutcome(s, Ignored)
    else if s.currentDirection.value == tapped then
      var newScore := s.score + CalculateScore(reactionTime, difficulty);
      var newLevel := LevelForScore(newScore);
      TapOutcome(s.(score := newScore, level := newLevel, reactionTime := reactionTime),
                 Correct(newLevel > s.level))
    else
      TapOutcome(s, WrongDirection)
  }

  /** One tap with a non-negative reaction time earns at most 100 points, so the level
      rises by at most one, and the announcement is made exactly when it rises by one. */
  lemma {:induction false} TapRaisesLevelByAtMostOne(s: GameState, tapped: Direction, rt: int, d: Difficulty)
    requires Consistent(s) && rt >= 0
    ensures var o := HandleTap(s, tapped, rt, d);
      && s.level <= o.state.level <= s.level + 1
      && (o.feedback == Correct(true) <==> o.state.level == s.level + 1)
  {
    var o := HandleTap(s, tapped, rt, d);
    if Active(s) && s.currentDirection == Some(tapped) {
      var p := CalculateScore(rt, d);
      var q := s.score / POINTS_PER_LEVEL;
      assert 0 <= p <= 100;
      assert q * POINTS_PER_LEVEL <= s.score < (q + 1) * POINTS_PER_LEVEL;
      assert s.score + p < (q + 2) * POINTS_PER_LEVEL;
      assert o.state.level - 1 < q + 2;
    }
  }

  /** The level is announced exactly when the new score reaches a multiple of 500 that
      the old score was below. */
  lemma {:induction false} LevelUpAtMultiplesOf500(s: GameState, tapped: Direction, rt: int, d: Difficulty)
    requires Consistent(s)
    ensures var o := HandleTap(s, tapped, rt, d);
      o.feedback == Correct(true) <==>
        exists k :: s.score < k * POINTS_PER_LEVEL <= o.state.score
  {
    var o := HandleTap(s, tapped, rt, d);
    var q := s.score / POINTS_PER_LEVEL;
    if o.feedback == Correct(true) {
      var k := o.state.level - 1;
      assert k >= q + 1;
      assert s.score < (q + 1) * POINTS_PER_LEVEL <= k * POINTS_PER_LEVEL <= o.state.score;
    }
    if exists k :: s.score < k * POINTS_PER_LEVEL <= o.state.score {
      var k :| s.score < k * POINTS_PER_LEVEL <= o.state.score;
      assert k > q;
      assert o.state.score / POINTS_PER_LEVEL >= k;
      assert Active(s) && s.currentDirection == Some(tapped);
    }
  }

  /** A correct tap does not close the round: the same tap is accepted again, and
      again earns points. */
  lemma RepeatedTapsAccepted(s: GameState, tapped: Direction, rt1: int, rt2: int, d: Difficulty)
    requires Active(s) && s.currentDirection == Some(tapped)
    ensures var o1 := HandleTap(s, tapped, rt1, d);
      var o2 := HandleTap(o1.state, tapped, rt2, d);
      && o2.feedback.Correct?
      && o2.state.score == s.score + CalculateScore(rt1, d) + CalculateScore(rt2, d)
  {
  }

  // ---------------------------------------------------------------------------
  // A session as a sequence of events
  // ---------------------------------------------------------------------------

  /** The inputs that drive the record: the hook's three commands and the rounds its
      timer loop plays, with the random draw and the measured reaction time resolved. */
  datatype Event =
    | Start
    | NextRound(direction: Direction)
    | Stop
    | Tap(tapped: Direction, reactionTime: int)

  /** The effect of one event on the record. */
  function Step(s: GameState, e: Event, difficulty: Difficulty): (t: GameState)
  {
    match e
    case Start => StartGame(s)
    case NextRound(dir) => PlayNextRound(s, dir)
    case Stop => StopGame(s)
    case Tap(dir, rt) => HandleTap(s, dir, rt, difficulty).state
  }

  /** The record after a sequence of events, applied in order. */
  function Run(s: GameState, events: seq<Event>, difficulty: Difficulty): (t: GameState)
    decreases |events|
  {
    if events == [] then s
    else Run(Step(s, events[0], difficulty), events[1..], difficulty)
  }

  /** Every record reachable from the initial one is consistent. */
  lemma {:induction false} RunKeepsConsistent(s: GameState, events: seq<Event>, d: Difficulty)
    requires Consistent(s)
    ensures Consistent(Run(s, events, d))
    decreases |events|
  {
    if events != [] {
      var t := Step(s, events[0], d);
      assert Consistent(t);
      RunKeepsConsistent(t, events[1..], d);
    }
  }

  lemma ReachableIsConsistent(d: Difficulty, events: seq<Event>)
    ensures Consistent(Run(InitialState(d), events, d))
  {
    RunKeepsConsistent(InitialState(d), events, d);
  }

  /** Between two starts neither the score nor the level ever goes down. */
  lemma {:induction false} RunWithoutStartNeverLowersProgress(s: GameState, events: seq<Event>, d: Difficulty)
    requires Consistent(s)
    requires forall i :: 0 <= i < |events| ==> events[i] != Start
    ensures Run(s, events, d).score >= s.score
    ensures Run(s, events, d).level >= s.level
    decreases |events|
  {
    if events != [] {
      var t := Step(s, events[0], d);
      assert events[0] != Start;
      assert t.score >= s.score && Consistent(t);
      LevelForScoreMonotone(s.score, t.score);
      RunWithoutStartNeverLowersProgress(t, events[1..], d);
    }
  }
}
