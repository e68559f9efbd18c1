# Echo Tap: round and scoring core

A model of the scoring and session logic of an accessible audio reaction game. A
sound plays from one of four directions (left, right, front, back). The player taps
the matching screen region. A correct tap earns points that fall off linearly with
the reaction time, and every 500 points raise the level. The delay before the next
round is computed for a level and shrinks as the level rises (but see "React state
mechanics" under "## Left out" for which level the program actually uses).

Three Dafny modules:

- `GameLogic` (`gamelogic.dfy`) covers `utils/gameLogic.ts`. It holds the directions
  list, the difficulty table, the direction draw, the delay for a level and the
  score of a tap, as pure functions. Random draws are parameters: a fraction `r`
  in [0, 1). Delays are mathematical reals. The score is computed in exact reals
  with `.Floor` and is proved equal to an exact integer formula; the program's
  double-precision rounding is not modelled (see "## Left out").
- `GameSession` (`gamestate.dfy`) covers the session record of
  `hooks/useGameState.ts` and its four transitions as functions from record to
  record. A tap returns the new record and the feedback the player gets: ignored,
  "wrong direction", or "correct", with a flag for the level announcement. The
  module also gives the effect of a whole sequence of events (`Run`). It proves
  that every reachable record has `level == floor(score / 500) + 1` and a
  non-negative score.
- `GameHook` (`session.dfy`) is the hook itself as a class `Session`. Its fields
  are the record, the hook's `difficulty` argument, and the time the last sound
  started (the `soundStartTimeRef` ref). Each callback replaces the record with
  the matching `GameSession` transition. The clock (`Date.now`) and the random
  source (`Math.random`) are parameters of the callbacks that read them. The
  reaction time of a tap is `now - soundStartTime`. A round is split into
  `PlayNextRound` (the target is set) and `SoundStarted` (the time is noted); in the
  program only an await on an already-resolved promise separates the two, while
  the model also admits a tap in between.

The tap is scored at the hook's `difficulty` argument, not at the record's
`difficulty` field (hooks/useGameState.ts:75). The field is set once, when the hook
is created (hooks/useGameState.ts:14). If the screen later passes a different
difficulty, the field goes stale. `Session.SetDifficulty` models that change.

The code has no lives, streaks, bonus lives, game over, reaction timeout or jittered
interval. The model follows the code and has none of them either. Two more things
the code does are kept. First, a correct tap does not clear the pending direction,
so the same round accepts any number of taps (`RepeatedTapsAccepted`). Second, the
round loop schedules the next round unconditionally.

## Model

| member | source | states |
|---|---|---|
| `GameLogic.Settings` | utils/gameLogic.ts:15-31 | every preset has `0 < minDelay < maxDelay` and a positive reaction window |
| `GameLogic.SettingsOrderedBySpeed` | utils/gameLogic.ts:15-31 | slow is at least as lenient as normal in every field, and normal at least as lenient as fast |
| `GameLogic.DirectionsListEachOnce` | utils/gameLogic.ts:13 | the directions list has four entries, contains every direction and has no repeats |
| `GameLogic.DirectionIndex` | utils/gameLogic.ts:34 | for `r` in [0, 1) the index `floor(4r)` is a valid index of the list, and it is the integer part of `4r` |
| `GameLogic.GetRandomDirection` | utils/gameLogic.ts:33-35 | the drawn direction is an entry of `DIRECTIONS` (which entry: `GetRandomDirectionQuarter`) |
| `GameLogic.GetRandomDirectionQuarter` | utils/gameLogic.ts:33-35 | the direction drawn is list entry `i` exactly when `r` lies in `[i/4, (i+1)/4)`, so each direction owns one quarter of the range and every direction can be drawn |
| `GameLogic.MaxReal` | utils/gameLogic.ts:40 | `Math.max`: the result is at least both arguments and equal to one of them |
| `GameLogic.LevelModifier` | utils/gameLogic.ts:40 | the level factor is at least 0.5, exactly 0.5 from level 10 on, at most 1 for levels `>= 0`, and `1 - 0.05*level` below level 10 |
| `GameLogic.LevelModifierNonIncreasing` | utils/gameLogic.ts:40 | a higher level never gives a larger factor |
| `GameLogic.BaseDelay` | utils/gameLogic.ts:39 | `minDelay + (maxDelay-minDelay)*r`: it is `minDelay` at `r = 0` (its range `[minDelay, maxDelay)` for `r` in [0, 1): `BaseDelayInRange`) |
| `GameLogic.BaseDelayInRange` | utils/gameLogic.ts:38-39 | for `r` in [0, 1) the base delay of every preset lies in `[minDelay, maxDelay)` |
| `GameLogic.GetDelayForLevel` | utils/gameLogic.ts:37-42 | the base delay times the level modifier: the base delay itself at level 0 and half of it from level 10 on (its bounds: `GetDelayForLevelInRange`) |
| `GameLogic.GetDelayForLevelInRange` | utils/gameLogic.ts:37-42 | for `r` in [0, 1) and level `>= 0` the delay lies in `[0.5*minDelay, maxDelay)` |
| `GameLogic.DelayNonIncreasingInLevel` | utils/gameLogic.ts:39-41 | for one random draw and one difficulty, a higher level never gives a longer delay |
| `GameLogic.CalculateScore` | utils/gameLogic.ts:44-49 | the score is never negative, is 0 once the reaction time reaches the window, is 100 for a reaction time of 0, and is at most 100 for any non-negative reaction time |
| `GameLogic.FloorOfQuotient` | utils/gameLogic.ts:48 | the floor of the real quotient `p/q` is the integer quotient, for `q > 0` |
| `GameLogic.CalculateScoreIsExact` | utils/gameLogic.ts:44-49 | the real-valued score equals the integer formula `0` if `rt >= w`, else `(100*(w-rt)) div w` |
| `GameLogic.CalculateScoreNonIncreasing` | utils/gameLogic.ts:47-48 | a longer reaction time never earns more points |
| `GameLogic.CalculateScoreRewardsLenience` | utils/gameLogic.ts:15-31 | for the same non-negative reaction time, fast never awards more than normal, and normal never more than slow |
| `GameSession.LevelForScore` | hooks/useGameState.ts:77 | the level `floor(score/500)+1` is the level whose 500-point band contains the score, and it is at least 1 for a non-negative score |
| `GameSession.LevelForScoreMonotone` | hooks/useGameState.ts:77 | a higher score never gives a lower level |
| `GameSession.InitialState` | hooks/useGameState.ts:8-15 | the fresh record has level 1, score 0, no pending direction, is not playing, has reaction time 0 and the given difficulty, and is consistent |
| `GameSession.StartGame` | hooks/useGameState.ts:42 | starting sets playing, score 0 and level 1, leaves direction, reaction time and difficulty, and gives a consistent record |
| `GameSession.PlayNextRound` | hooks/useGameState.ts:24 | a new round sets the pending direction and changes nothing else |
| `GameSession.StopGame` | hooks/useGameState.ts:56 | stopping clears playing and the pending direction and keeps score, level, reaction time and difficulty |
| `GameSession.HandleTap` | hooks/useGameState.ts:59-94 | a tap while not playing or with no pending direction is ignored and a wrong tap is reported, both with the record unchanged; a correct tap adds `calculateScore` points, sets the level from the new score and records the reaction time, keeps direction, playing and difficulty, and announces a level exactly when the level went up; no tap lowers the score |
| `GameSession.TapRaisesLevelByAtMostOne` | hooks/useGameState.ts:75-88 | from a consistent record, a tap with a non-negative reaction time raises the level by at most one, and the level is announced exactly when it rises |
| `GameSession.LevelUpAtMultiplesOf500` | hooks/useGameState.ts:75-88 | the level is announced exactly when the new score reaches a multiple of 500 that the old score was below |
| `GameSession.RepeatedTapsAccepted` | hooks/useGameState.ts:79-84 | a correct tap leaves the round open: the same tap right after is correct again and earns its points again |
| `GameSession.RunKeepsConsistent` | hooks/useGameState.ts:20-94 | any sequence of starts, rounds, stops and taps keeps the score non-negative and the level equal to `floor(score/500)+1` |
| `GameSession.ReachableIsConsistent` | hooks/useGameState.ts:8-15 | every record reachable from the initial one is consistent |
| `GameSession.RunWithoutStartNeverLowersProgress` | hooks/useGameState.ts:76-77 | between two starts, neither the score nor the level ever goes down |
| `GameHook.Session.constructor` | hooks/useGameState.ts:7-18 | a new hook holds the initial record for its difficulty, and the sound time starts at 0 |
| `GameHook.Session.SetDifficulty` | hooks/useGameState.ts:7 | a new difficulty argument changes the difficulty used for scoring and delays, and leaves the record alone |
| `GameHook.Session.StartGame` | hooks/useGameState.ts:37-48 | the record becomes `StartGame` of the old record; nothing else changes |
| `GameHook.Session.PlayNextRound` | hooks/useGameState.ts:20-24 | the record gets the direction drawn from `rDirection` as its pending target |
| `GameHook.Session.SoundStarted` | hooks/useGameState.ts:27-34 | the sound time becomes `now`, the moment the round's sound started, so reaction times include the tone; the delay returned is `getDelayForLevel` at the current level and lies in `[0.5*minDelay, maxDelay)` |
| `GameHook.Session.StopGame` | hooks/useGameState.ts:50-57 | the record becomes `StopGame` of the old record |
| `GameHook.Session.HandleTap` | hooks/useGameState.ts:59-94 | the tap is judged by `GameSession.HandleTap` with reaction time `now - soundStartTime` at the hook's difficulty; score and level never go down |

## Left out

- Audio output, speech, haptics and logging (the whole audio engine, and
  hooks/useGameState.ts:22, 27, 39-40, 61, 68, 72-73, 87, 91-92). They change no game
  state. The level announcement and the correct/wrong feedback are returned as the
  `Feedback` value. Only the `Direction` type of utils/audioEngine.ts:5 is used.
- Timers. This covers the 2000 ms start delay, the self-rescheduling round loop and
  the `gameLoopRef` handle that `stopGame` cancels (hooks/useGameState.ts:17, 32-34,
  45-47, 51-55). Rounds are explicit calls instead. `SoundStarted` returns the delay
  the loop would wait. Because the handle is not modelled, the model cannot express
  that a stop during the uncancelled 2000 ms start timer or during a round's
  `await playDirectionalSound` lets that round store a fresh `gameLoopRef` after the
  stop has cleared it, so the loop keeps rescheduling itself forever while
  `isPlaying` is false, setting `currentDirection` each round, and a later start
  runs a second loop beside it.
- The default argument of the hook (`difficulty = 'normal'`,
  hooks/useGameState.ts:7): the `Session` constructor always takes a difficulty;
  passing `Normal` gives the default.
- `Math.random` and `Date.now`. They are parameters: fractions in [0, 1) and a
  millisecond time.
- React state mechanics. Each callback in the source reads `gameState` from the
  render it was created in. For example, the round loop re-invokes the same
  `playNextRound` closure, which keeps reading the `gameState.level` of that
  render (hooks/useGameState.ts:31-35). The model applies every transition to the
  latest record and computes the delay at the current level. In the program the
  loop always re-invokes the `playNextRound` captured by the `startGame` that was
  pressed (hooks/useGameState.ts:45-48), so the delay level is frozen for a whole
  game at the level shown when Start was pressed; since `stopGame` keeps the level,
  a restarted game runs its entire loop at the previous game's final level.
- GetDelayForLevel: computed over mathematical reals, not IEEE-754 doubles. The
  bounds hold exactly in the model; the program's rounding is not modelled.
- CalculateScore: the upper bound of 100 is stated only for non-negative reaction
  times. The code has no guard for a negative reaction time, and for one the score
  exceeds 100. A non-negative time needs a clock that does not go backwards. The
  score is also computed in exact reals, while the program divides, subtracts and
  multiplies in IEEE-754 doubles. Where `100*(w-rt)/w` is a whole number, rounding
  can make the program's score one point lower than the model's: at `normal`
  (w = 2000) with rt = 1860, `1860/2000` rounds up, `100*(1-q)` becomes
  6.999999999999995 and `Math.floor` gives 6, while `CalculateScore(1860, Normal)`
  is 7 (likewise rt = 2790 at `slow` and rt = 1395 at `fast`). The four bounds of
  its contract hold under doubles too.
