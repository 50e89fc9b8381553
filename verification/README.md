# River crossing puzzle: rules engine and crossing state machine

A Dafny model of the core of a browser game built on the farmer, wolf, sheep
and cabbage puzzle. The player ferries all four across the river twenty
times, and the target bank alternates each round. A bank the farmer has left
must not hold the wolf with the sheep, or the sheep with the cabbage.

The model has five modules:

- `Wrappers` (`wrappers.dfy`): the optional value used for reasons and
  for the clock reader.
- `GameTypes` (`game_types.dfy`): entities, locations (`Left`, `Right`,
  `Boat`), the `Side` subset type for the two banks, and the total
  `Position` record.
- `GameLogic` (`game_logic.dfy`): the pure rules engine. It covers the
  bank-safety check with its reason strings, boarding eligibility, the
  boat-full predicate, the unused `getBoatSide` and `isWinning`, round
  completion with the target bank alternating by round parity, and the score.
- `Crossing` (`crossing.dfy`): the game screen's two click handlers as a
  deterministic transition system. Its state is the position, the bank the
  boat is moored at, the move count, the round counter and the animation
  flag. Boarding, leaving the boat and crossing are its transitions; each
  crossing ends with the post-crossing judgement. An invariant is proved for
  every run from the initial state.
- `Clock` (`clock.dfy`): the `m:ss` time display, with a reader proved to
  invert it in both directions.

Rounds are numbered by the screen's round counter, from index 0 to index 19.

What the code enforces differs from the game's own text in two ways. The
start screen says the boat carries the farmer plus one item, and the score
treats 7 crossings per round (140 in all) as optimal. The code does not
enforce that limit:

- a non-farmer may board only while the farmer stands beside it on the bank;
- it may board while fewer than two entities are aboard;
- the farmer is exempt from the full check.

So two items and the farmer can cross together. The model proves the bound
the code enforces: at most two items, so at most three aboard. It shows that
three aboard is reachable (`Crossing.ThreeAboardReachable`). It also shows
that all twenty rounds can be won in 60 crossings, and that such a game
scores less than one of exactly 140 (`Crossing.WinInSixtyMoves`).

The second difference is the empty boat's hint "Click farmer to board
first!" (`src/components/Boat.tsx:47`). Once the farmer is aboard no item can
board, so items must board before the farmer (`Crossing.ItemsBoardBeforeFarmer`);
following the hint, the farmer can only cross alone.

Round completion is checked against the round counter as it stood before the
crossing. The counter is incremented only after a round completes. This is
what `src/components/GameScreen.tsx:98-109` does.

## Model

| member | source | states |
|---|---|---|
| `GameLogic.Occupants` | src/logic/gameLogic.ts:18-25 | a bank's list holds exactly the entities whose location is that bank |
| `GameLogic.IsValidState` | src/logic/gameLogic.ts:17-47 | valid iff no farmerless bank holds the sheep with the wolf or the cabbage; a reason is present exactly when invalid; the wolf reason is given iff a farmerless bank holds wolf and sheep, the cabbage reason iff one holds sheep and cabbage without the wolf |
| `GameLogic.AtMostOneUnsafeBank` | src/logic/gameLogic.ts:27-44 | both dangerous pairs contain the sheep, so the two banks are never unsafe together |
| `GameLogic.CheckOrderIrrelevant` | src/logic/gameLogic.ts:27-44 | checking the right bank before the left yields the same verdict and reason |
| `GameLogic.CheckBankDependsOnMembership` | src/logic/gameLogic.ts:27-44 | two bank lists with the same members get the same verdict, so the order in which the bank lists are built (gameLogic.ts:18-25) does not matter |
| `GameLogic.BoardingItemKeepsValid` | src/logic/gameLogic.ts:27-44 | moving a non-farmer off a bank into the boat never makes a safe position unsafe |
| `Crossing.ItemsBoardBeforeFarmer` | src/logic/gameLogic.ts:49-54 | under the handlers' invariant, an item on the moored bank may move iff the farmer is not in the boat, and once the farmer is aboard a click on such an item changes nothing, so items must board before the farmer |
| `GameLogic.NoItemMovesWhileFarmerAboard` | src/logic/gameLogic.ts:49-54 | while the farmer is in the boat, no entity on a bank except the farmer may move |
| `GameLogic.IsBoatFull` | src/logic/gameLogic.ts:56-61 | full iff at least two of the four entities are in the boat, equivalently iff two distinct entities are aboard |
| `Crossing.GetBoatSideAgreesAshore` | src/logic/gameLogic.ts:63-65 | in every reachable state with the farmer ashore, `getBoatSide` equals the bank the screen has the boat moored at |
| `Crossing.GetBoatSideDisagreesAboard` | src/logic/gameLogic.ts:63-65 | after the first trip and the farmer boarding again, the boat is moored on the right bank while `getBoatSide` reports the left |
| `GameLogic.IsWinning` | src/logic/gameLogic.ts:67-74 | winning iff every entity is on the right bank, i.e. iff the position is the winning position |
| `GameLogic.IsRoundComplete` | src/logic/gameLogic.ts:76-87 | complete iff every entity is on the round's target bank (right for even rounds, left for odd) |
| `GameLogic.TargetAlternates` | src/logic/gameLogic.ts:79 | consecutive rounds have opposite target banks |
| `GameLogic.EvenRoundCompleteIsWinning` | src/logic/gameLogic.ts:67-87 | on even rounds completion coincides with `isWinning` |
| `GameLogic.RoundIncompleteWhileAboard` | src/logic/gameLogic.ts:76-87 | no round is complete while anyone is in the boat |
| `GameLogic.InitialCompletesOddRounds` | src/logic/gameLogic.ts:3-8 | the starting position completes the round with index c iff c is odd, so not round index 0, the one the game starts in |
| `GameLogic.CalculateScore` | src/logic/gameLogic.ts:89-103 | never negative; below 140 moves it is 10000 plus 5 per second under 600; at exactly 140 moves it is 15000 plus the same time bonus |
| `GameLogic.ScoreNonIncreasingInTime` | src/logic/gameLogic.ts:96-97 | more elapsed time never raises the score |
| `GameLogic.ScoreNonIncreasingInMoves` | src/logic/gameLogic.ts:93-94 | beyond 140 moves, more moves never raise the score |
| `GameLogic.FirstExtraMove` | src/logic/gameLogic.ts:93-100 | at 141 moves the perfect bonus is gone and ten points are lost: 9990 plus the time bonus |
| `GameLogic.ExtraMoveCostsTen` | src/logic/gameLogic.ts:93-94 | beyond 140 moves each further move lowers the score by exactly ten, down to the floor at zero |
| `GameLogic.ScoreExamples` | src/logic/gameLogic.ts:89-103 | (140,300) scores 16500, (140,600) 15000, (160,700) 9800 |
| `Crossing.HandleEntityClick` | src/components/GameScreen.tsx:48-68 | a click boards an entity iff no crossing is under way, it stands on the moored bank, and it is the farmer or stands with the farmer while fewer than two are aboard; a click on an aboard entity puts it on the moored bank; only that entity moves, and every other click changes nothing |
| `Crossing.Relocate` | src/components/GameScreen.tsx:81-86 | every listed entity in the boat lands on the new bank; everyone else keeps their place |
| `Crossing.Ferry` | src/components/GameScreen.tsx:78-86 | after the bulk relocation every former boat occupant is on the new bank and nobody else moved |
| `Crossing.Judge` | src/components/GameScreen.tsx:93-113 | game over exactly when the landed position is unsafe, with the safety check's reason; completion exactly when a safe landing finishes round index 19, scored on the new move count and the given time; the counter rises by one exactly when a safe landing finishes an earlier round; otherwise the state is unchanged |
| `Crossing.HandleCrossRiver` | src/components/GameScreen.tsx:70-115 | a no-op unless no crossing is under way and the farmer is aboard; otherwise every occupant lands on the opposite bank, bank entities stay, the boat side flips, moves rise by exactly one, the boat is empty, and the landing is judged |
| `Crossing.InitialStateInv` | src/components/GameScreen.tsx:27-32 | the starting session satisfies the handlers' invariant |
| `Crossing.StepPreservesInv` | src/components/GameScreen.tsx:48-115 | each click or crossing keeps the invariant: farmer on the moored bank or aboard, at most two items aboard, round counter below 20, no crossing under way; the counter stays or rises by one |
| `Crossing.RunPreservesInv` | src/components/GameScreen.tsx:48-115 | every run from an invariant state keeps the invariant and never lowers the round counter |
| `Crossing.ReachableBounds` | src/components/GameScreen.tsx:55-57 | in every reachable state the farmer is on the moored bank or aboard, at most three are in the boat, and the counter is below 20 |
| `Crossing.CompletionNeedsTwentyRounds` | src/components/GameScreen.tsx:98-105 | the game completes only on the crossing that finishes round index 19, the last of the twenty |
| `Crossing.ThreeAboardReachable` | src/components/GameScreen.tsx:54-61 | sheep, wolf, then farmer board from the start, giving three aboard, and all three cross together safely |
| `Crossing.FirstTripScenario` | src/components/GameScreen.tsx:48-91 | farmer and sheep crossing first leaves a safe position that does not complete round index 0 |
| `Crossing.QuickRoundEffect` | src/components/GameScreen.tsx:94-110 | a three-crossing round moves everybody to the target bank and advances the counter, or completes the game after round index 19 |
| `Crossing.WinInSixtyMoves` | src/logic/gameLogic.ts:90 | all twenty rounds can be completed in 60 crossings, fewer than the 140 the score treats as optimal, and that game scores less than one of 140 |
| `Clock.NatToString` | src/components/Stats.tsx:20-22 | a non-negative integer prints as a non-empty run of digits without a leading zero whose decimal value is the integer |
| `Clock.CanonicalIsPrinted` | src/components/Stats.tsx:22 | every digit string without a leading zero is the printout of its value |
| `Clock.PadStart` | src/components/Stats.tsx:22 | the padded string is the original preceded by pad characters up to the requested width |
| `Clock.PaddedSecondsValue` | src/components/Stats.tsx:21-22 | the seconds field is exactly two digits and denotes `seconds % 60` |
| `Clock.FormatTime` | src/components/Stats.tsx:19-23 | the display ends in a colon followed by two characters, and reading it back as canonical minute digits times 60 plus two seconds digits below 60 recovers the input |
| `Clock.ParseFields` | src/components/Stats.tsx:22 | cutting minutes, colon and a two-character seconds field apart at the third character from the end gives back both fields |
| `Clock.ParseThenFormat` | src/components/Stats.tsx:19-23 | every string the reader accepts is exactly the display of the number it reads |

## Left out

- Timers and sound: the one-second clock, the crossing and ending delays, the sound effects and the background music are not modelled. A crossing is one atomic step, and the elapsed time is an input of that step.
- `time` is read when the crossing starts rather than when the delayed callback fires. The model takes it as a plain input, so this lag is not modelled.
- Input after the game ends is not modelled. The screen keeps accepting clicks for the half second between the verdict and its delayed report of game over or completion; a run of the model stops at the verdict.
- The `animating` flag is kept, and every handler honours it. Because the crossing is atomic, the flag is never set in a reachable state.
- The rendering, including the banks' `disabled` props, is not modelled. The handlers enforce the same guards again.
- Screen routing (`src/App.tsx`) is not modelled: it only sets state.
- Best-score persistence (`src/components/CompleteScreen.tsx`) is not modelled. Its "perfect solution" test `moves === 7` (line 50) disagrees with the 140-move optimum of `src/logic/gameLogic.ts:90`.
- Sound volume sliders and the presentational components are not modelled: they hold no game logic.
- `src/utils/soundManager.ts` and `src/utils/backgroundMusic.ts` are not part of this model: they are audio plumbing only.
- Clock.FormatTime: covers non-negative whole seconds only, which is all the clock produces. Negative or fractional numbers and the JavaScript number-to-string rules for them are not modelled, nor is the exponent form (`1e+21`) that `toString` uses for whole numbers of 10^21 and above.
- GameLogic.CalculateScore: takes moves and time as non-negative integers. JavaScript floating-point numbers are not modelled.
- GameLogic.GetBoatSide and GameLogic.IsWinning are modelled as written, though the game screen never calls them. The screen keeps its own boat side; the two agree whenever the farmer is ashore, and can differ while the farmer is aboard (`Crossing.GetBoatSideAgreesAshore`, `Crossing.GetBoatSideDisagreesAboard`).
- That 60 crossings is the true minimum is not proved. The model shows only that 60 are enough.
