/** The game hook as an object: the session record it keeps in React state, the
    difficulty argument it was called with, and the time the last sound started,
    each replaced by the hook's callbacks. The clock and the random source are
    parameters of the callbacks that read them. */
module GameHook {
  import opened GameLogic
  import opened GameSession

  class Session {
    /** The record the hook renders from. */
    var state: GameState
    /** The difficulty argument of the hook: what scores and delays are computed at. */
    var difficulty: Difficulty
    /** When the current round's sound started playing (ms); 0 before any round. */
    var soundStartTime: int

    ghost predicate Valid()
      reads this
    {
      Consistent(state)
    }

    /** A fresh hook for a difficulty. */
    constructor (d: Difficulty)
      ensures Valid()
      ensures state == InitialState(d) && difficulty == d && soundStartTime == 0
    {
      state := InitialState(d);
      difficulty := d;
      soundStartTime := 0;
    }

    /** The screen passes a different difficulty to the hook: later scores and delays
        use it, while the record's own `difficulty` field keeps its initial value. */
    method SetDifficulty(d: Difficulty)
      requires Valid()
      modifies this
      ensures Valid()
      ensures difficulty == d && state == old(state) && soundStartTime == old(soundStartTime)
    {
      difficulty := d;
    }

    method StartGame()
      requires Valid()
      modifies this
      ensures Valid()
      ensures state == GameSession.StartGame(old(state))
      ensures difficulty == old(difficulty) && soundStartTime == old(soundStartTime)
    {
      state := GameSession.StartGame(state);
    }

    /** The first half of a round: draw a direction from `rDirection` and make it the
        pending target. The program starts the sound for it straight away and awaits a
        promise that is already resolved before `SoundStarted` notes the time; this
        model allows a tap between the two halves, which the program all but rules
        out. The proofs about taps hold for every interleaving. */
    method PlayNextRound(rDirection: real)
      requires Valid()
      requires 0.0 <= rDirection < 1.0
      modifies this
      ensures Valid()
      ensures state == GameSession.PlayNextRound(old(state), GetRandomDirection(rDirection))
      ensures difficulty == old(difficulty) && soundStartTime == old(soundStartTime)
    {
      var direction := GetRandomDirection(rDirection);
      state := GameSession.PlayNextRound(state, direction);
    }

    /** The second half of a round, right after its sound has started: note the time
        `now` from which taps are timed (the reaction time includes the tone) and return
        the delay (drawn from `rDelay`) after which the loop plays the next round. */
    method SoundStarted(rDelay: real, now: int) returns (delay: real)
      requires Valid()
      requires 0.0 <= rDelay < 1.0
      modifies this
      ensures Valid()
      ensures state == old(state) && difficulty == old(difficulty) && soundStartTime == now
      ensures delay == GetDelayForLevel(state.level, difficulty, rDelay)
      ensures 0.5 * Settings(difficulty).minDelay as real <= delay < Settings(difficulty).maxDelay as real
    {
      soundStartTime := now;
      delay := GetDelayForLevel(state.level, difficulty, rDelay);
      GetDelayForLevelInRange(state.level, difficulty, rDelay);
    }

    method StopGame()
      requires Valid()
      modifies this
      ensures Valid()
      ensures state == GameSession.StopGame(old(state))
      ensures difficulty == old(difficulty) && soundStartTime == old(soundStartTime)
    {
      state := GameSession.StopGame(state);
    }

    /** A tap on `tapped` at time `now`; the reaction time is measured from the start
        of the current round's sound. Returns what the player is told. */
    method HandleTap(tapped: Direction, now: int) returns (feedback: Feedback)
      requires Valid()
      modifies this
      ensures Valid()
      ensures TapOutcome(state, feedback) == GameSession.HandleTap(old(state), tapped, now - old(soundStartTime), difficulty)
      ensures state.score >= old(state.score) && state.level >= old(state.level)
      ensures difficulty == old(difficulty) && soundStartTime == old(soundStartTime)
    {
      var outcome := GameSession.HandleTap(state, tapped, now - soundStartTime, difficulty);
      LevelForScoreMonotone(state.score, outcome.state.score);
      state := outcome.state;
      feedback := outcome.feedback;
    }
  }
}
