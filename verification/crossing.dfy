/** The crossing state machine driven by the game screen's click handlers
    (src/components/GameScreen.tsx): boarding and leaving the boat, crossing
    the river, and resolving the position the crossing leaves behind. The
    crossing, which the screen animates for a second, is one atomic step here
    whose `time` (elapsed seconds) is an input. */
module Crossing {
  import opened Wrappers
  import opened GameTypes
  import opened GameLogic

  const TotalCrossings: nat := 20

  /** The screen's session state. */
  datatype GameState = GameState(
    position: Position,
    boatSide: Side,
    moves: nat,
    currentCrossing: nat,
    animating: bool)

  const InitialState: GameState := GameState(InitialPosition, Left, 0, 0, false)

  /** What the screen reports after an action: play on, game over with the
      reason, or the game completed with its move count and score. */
  datatype Outcome = Continue | GameOver(reason: string) | Complete(moves: nat, score: int)

  datatype Resolution = Resolution(state: GameState, outcome: Outcome)

  /** When a click on `e` puts it into the boat: it stands on the bank where the
      boat is moored and either is the farmer or stands with the farmer while
      fewer than two entities are aboard. */
  predicate MayBoard(s: GameState, e: Entity) {
    && !s.animating
    && At(s.position, e) == s.boatSide
    && (e == Farmer || (At(s.position, e) == At(s.position, Farmer) && BoatLoad(s.position) < 2))
  }

  /** When a click on `e` takes it out of the boat. */
  predicate MayLeave(s: GameState, e: Entity) {
    !s.animating && At(s.position, e) == Boat
  }

  /** `handleEntityClick`: board from the bank, or step out onto the bank the
      boat is moored at; every other click is ignored. */
  function HandleEntityClick(s: GameState, e: Entity): (t: GameState)
    ensures t.boatSide == s.boatSide && t.moves == s.moves
    ensures t.currentCrossing == s.currentCrossing && t.animating == s.animating
    ensures forall e' :: e' != e ==> At(t.position, e') == At(s.position, e')
    ensures MayBoard(s, e) ==> At(t.position, e) == Boat
    ensures MayLeave(s, e) ==> At(t.position, e) == s.boatSide
    ensures !MayBoard(s, e) && !MayLeave(s, e) ==> t == s
  {
    if s.animating then s
    else
      var loc := At(s.position, e);
      if loc == Left || loc == Right then
        if loc != s.boatSide then s
        else if !CanMoveEntity(e, s.position) then s
        else if e != Farmer && IsBoatFull(s.position) then s
        else s.(position := With(s.position, e, Boat))
      else
        s.(position := With(s.position, e, s.boatSide))
  }

  /** Every entity of `es` that sits in the boat is put on `side`. */
  function Relocate(p: Position, es: seq<Entity>, side: Side): (r: Position)
    ensures forall e :: At(r, e) == (if e in es && At(p, e) == Boat then side else At(p, e))
    decreases |es|
  {
    if |es| == 0 then p
    else
      var q := if At(p, es[0]) == Boat then With(p, es[0], side) else p;
      Relocate(q, es[1..], side)
  }

  /** A crossing may start only while no crossing is under way and the farmer
      is in the boat. */
  predicate CanCross(s: GameState) {
    !s.animating && At(s.position, Farmer) == Boat
  }

  /** The bulk relocation of a crossing: everybody in the boat lands on
      `side`, everybody on a bank stays put. */
  function Ferry(p: Position, side: Side): (r: Position)
    ensures forall e :: At(r, e) == (if At(p, e) == Boat then side else At(p, e))
  {
    assert forall e :: e in AllEntities by {
      forall e { AllEntitiesListsEveryEntity(e); }
    }
    Relocate(p, AllEntities, side)
  }

  /** The state right after the boat lands: position ferried, boat moored on
      the other bank, one more move, animation over. */
  function Landed(s: GameState): GameState {
    var newSide := Opposite(s.boatSide);
    GameState(Ferry(s.position, newSide), newSide, s.moves + 1, s.currentCrossing, false)
  }

  /** The judgement of a landed state: game over with the safety check's
      reason, a completed round (or, at the twentieth, the completed game
      scored on the new move count), or play on with the counter unchanged. */
  function Judge(landed: GameState, time: nat): (r: Resolution)
    ensures r.outcome.GameOver? <==> !IsValidState(landed.position).valid
    ensures r.outcome.GameOver? ==> IsValidState(landed.position).reason == Some(r.outcome.reason)
    ensures r.outcome.Complete? <==>
      && IsValidState(landed.position).valid
      && IsRoundComplete(landed.position, landed.currentCrossing)
      && landed.currentCrossing + 1 >= TotalCrossings
    ensures r.outcome.Complete? ==> r.outcome == Complete(landed.moves, CalculateScore(landed.moves, time))
    ensures r.state.currentCrossing == landed.currentCrossing + 1 <==>
      && IsValidState(landed.position).valid
      && IsRoundComplete(landed.position, landed.currentCrossing)
      && landed.currentCrossing + 1 < TotalCrossings
    ensures r.state == landed.(currentCrossing := r.state.currentCrossing)
    ensures r.state.currentCrossing != landed.currentCrossing + 1 ==> r.state == landed
  {
    var validation := IsValidState(landed.position);
    if !validation.valid then
      Resolution(landed, GameOver(validation.reason.value))
    else if IsRoundComplete(landed.position, landed.currentCrossing) then
      var next := landed.currentCrossing + 1;
      if next >= TotalCrossings then
        Resolution(landed, Complete(landed.moves, CalculateScore(landed.moves, time)))
      else
        Resolution(landed.(currentCrossing := next), Continue)
    else
      Resolution(landed, Continue)
  }

  /** `handleCrossRiver`, with its delayed callback run at once. */
  function HandleCrossRiver(s: GameState, time: nat): (r: Resolution)
    ensures !CanCross(s) ==> r == Resolution(s, Continue)
    ensures CanCross(s) ==>
      && (forall e :: At(s.position, e) == Boat ==> At(r.state.position, e) == Opposite(s.boatSide))
      && (forall e :: At(s.position, e) != Boat ==> At(r.state.position, e) == At(s.position, e))
      && r.state.boatSide == Opposite(s.boatSide)
      && r.state.moves == s.moves + 1
      && !r.state.animating
      && BoatLoad(r.state.position) == 0
    ensures CanCross(s) ==> r == Judge(Landed(s), time)
  {
    if s.animating || s.position.farmer != Boat then Resolution(s, Continue)
    else Judge(Landed(s), time)
  }

  /** A user action: a click on an entity, or a click on the boat at the
      given elapsed time. */
  datatype Action = Click(entity: Entity) | CrossRiver(time: nat)

  function Step(s: GameState, a: Action): Resolution {
    match a
    case Click(e) => Resolution(HandleEntityClick(s, e), Continue)
    case CrossRiver(time) => HandleCrossRiver(s, time)
  }

  /** Plays the actions in order until one of them ends the game. */
  function Run(s: GameState, actions: seq<Action>): Resolution
    decreases |actions|
  {
    if |actions| == 0 then Resolution(s, Continue)
    else
      var r := Step(s, actions[0]);
      if r.outcome.Continue? then Run(r.state, actions[1..]) else r
  }

  /** The invariant the handlers keep: the farmer is at the moored bank or in
      the boat, at most two non-farmers are aboard, the round counter stays
      below the total, and no crossing is left half done. */
  predicate Inv(s: GameState) {
    && (At(s.position, Farmer) == s.boatSide || At(s.position, Farmer) == Boat)
    && ItemsAboard(s.position) <= 2
    && s.currentCrossing < TotalCrossings
    && !s.animating
  }

  lemma InitialStateInv()
    ensures Inv(InitialState)
  {
  }

  lemma StepPreservesInv(s: GameState, a: Action)
    requires Inv(s)
    ensures Inv(Step(s, a).state)
    ensures Step(s, a).state.currentCrossing == s.currentCrossing
         || Step(s, a).state.currentCrossing == s.currentCrossing + 1
  {
    match a
    case Click(e) =>
      var t := HandleEntityClick(s, e);
      if MayBoard(s, e) && e != Farmer {
        assert At(s.position, Farmer) != Boat;
        assert ItemsAboard(t.position) <= BoatLoad(t.position) == BoatLoad(s.position) + 1;
      }
    case CrossRiver(time) =>
  }

  /** Every state reached from an invariant state satisfies the invariant, and
      the round counter never goes down. */
  lemma {:induction false} RunPreservesInv(s: GameState, actions: seq<Action>)
    requires Inv(s)
    ensures Inv(Run(s, actions).state)
    ensures Run(s, actions).state.currentCrossing >= s.currentCrossing
    decreases |actions|
  {
    if |actions| > 0 {
      StepPreservesInv(s, actions[0]);
      var r := Step(s, actions[0]);
      if r.outcome.Continue? {
        RunPreservesInv(r.state, actions[1..]);
      }
    }
  }

  /** In every reachable state the farmer is on the moored bank or in the
      boat, and the boat holds at most three: two items and the farmer. */
  lemma ReachableBounds(actions: seq<Action>)
    ensures var s := Run(InitialState, actions).state;
      && (At(s.position, Farmer) == s.boatSide || At(s.position, Farmer) == Boat)
      && BoatLoad(s.position) <= 3
      && s.currentCrossing < TotalCrossings
  {
    InitialStateInv();
    RunPreservesInv(InitialState, actions);
  }

  /** The game is only completed by the crossing that finishes the last round, index 19. */
  lemma CompletionNeedsTwentyRounds(s: GameState, time: nat)
    requires Inv(s)
    requires HandleCrossRiver(s, time).outcome.Complete?
    ensures s.currentCrossing == TotalCrossings - 1
    ensures IsRoundComplete(HandleCrossRiver(s, time).state.position, s.currentCrossing)
  {
  }

  /** Three aboard is reachable: the sheep and the wolf board beside the
      farmer, then the farmer boards, and all three cross together. */
  lemma ThreeAboardReachable()
    ensures Run(InitialState, [Click(Sheep), Click(Wolf), Click(Farmer)])
         == Resolution(GameState(Position(Boat, Boat, Boat, Left), Left, 0, 0, false), Continue)
    ensures BoatLoad(Position(Boat, Boat, Boat, Left)) == 3
    ensures Run(InitialState, [Click(Sheep), Click(Wolf), Click(Farmer), CrossRiver(5)])
         == Resolution(GameState(Position(Right, Right, Right, Left), Right, 1, 0, false), Continue)
  {
    var s1 := HandleEntityClick(InitialState, Sheep);
    assert s1 == GameState(Position(Left, Boat, Left, Left), Left, 0, 0, false);
    var s2 := HandleEntityClick(s1, Wolf);
    assert s2 == GameState(Position(Left, Boat, Boat, Left), Left, 0, 0, false);
    var s3 := HandleEntityClick(s2, Farmer);
    assert s3 == GameState(Position(Boat, Boat, Boat, Left), Left, 0, 0, false);
    var landed := GameState(Position(Right, Right, Right, Left), Right, 1, 0, false);
    PositionExtensionality(Ferry(s3.position, Right), landed.position);
    assert Landed(s3) == landed;
    assert IsValidState(landed.position).valid;
    assert !IsRoundComplete(landed.position, 0);
    assert Judge(landed, 5) == Resolution(landed, Continue);
    RunCons(s3, CrossRiver(5), []);
    RunCons(s2, Click(Farmer), []);
    RunCons(s2, Click(Farmer), [CrossRiver(5)]);
    RunCons(s1, Click(Wolf), [Click(Farmer)]);
    RunCons(s1, Click(Wolf), [Click(Farmer), CrossRiver(5)]);
    RunCons(InitialState, Click(Sheep), [Click(Wolf), Click(Farmer)]);
    RunCons(InitialState, Click(Sheep), [Click(Wolf), Click(Farmer), CrossRiver(5)]);
  }

  /** The first trip of the classic solution: farmer and sheep cross, leaving
      the wolf with the cabbage, which is safe but does not finish the round. */
  lemma FirstTripScenario()
    ensures Run(InitialState, [Click(Sheep), Click(Farmer), CrossRiver(3)])
         == Resolution(GameState(Position(Right, Right, Left, Left), Right, 1, 0, false), Continue)
    ensures IsValidState(Position(Right, Right, Left, Left)).valid
    ensures !IsRoundComplete(Position(Right, Right, Left, Left), 0)
  {
    var s1 := HandleEntityClick(InitialState, Sheep);
    assert s1 == GameState(Position(Left, Boat, Left, Left), Left, 0, 0, false);
    var s2 := HandleEntityClick(s1, Farmer);
    assert s2 == GameState(Position(Boat, Boat, Left, Left), Left, 0, 0, false);
    var landed := GameState(Position(Right, Right, Left, Left), Right, 1, 0, false);
    PositionExtensionality(Ferry(s2.position, Right), landed.position);
    assert Landed(s2) == landed;
    assert IsValidState(landed.position).valid;
    assert !IsRoundComplete(landed.position, 0);
    assert Judge(landed, 3) == Resolution(landed, Continue);
    RunCons(s2, CrossRiver(3), []);
    RunCons(s1, Click(Farmer), [CrossRiver(3)]);
    RunCons(InitialState, Click(Sheep), [Click(Farmer), CrossRiver(3)]);
  }

  /** Items must board before the farmer: with the farmer on the moored bank
      an item standing there may move, and once the farmer is aboard no item
      may, so a click on it changes nothing. */
  lemma ItemsBoardBeforeFarmer(s: GameState, e: Entity)
    requires Inv(s) && e != Farmer && At(s.position, e) == s.boatSide
    ensures CanMoveEntity(e, s.position) <==> At(s.position, Farmer) != Boat
    ensures At(s.position, Farmer) == Boat ==> HandleEntityClick(s, e) == s
  {
  }

  /** In every reachable state with the farmer ashore, `getBoatSide` names the
      bank the screen has the boat moored at. */
  lemma GetBoatSideAgreesAshore(actions: seq<Action>)
    ensures var s := Run(InitialState, actions).state;
      At(s.position, Farmer) != Boat ==> GetBoatSide(s.position) == s.boatSide
  {
    ReachableBounds(actions);
  }

  /** With the farmer aboard the two disagree: after the first trip the
      farmer boards again on the right bank, where the boat is moored, while
      `getBoatSide` reports the left. */
  lemma GetBoatSideDisagreesAboard()
    ensures var s := Run(InitialState, [Click(Sheep), Click(Farmer), CrossRiver(3), Click(Farmer)]).state;
      && s.boatSide == Right
      && At(s.position, Farmer) == Boat
      && GetBoatSide(s.position) == Left
  {
    var trip := [Click(Sheep), Click(Farmer), CrossRiver(3)];
    var landed := GameState(Position(Right, Right, Left, Left), Right, 1, 0, false);
    FirstTripScenario();
    assert trip + [Click(Farmer)] == [Click(Sheep), Click(Farmer), CrossRiver(3), Click(Farmer)];
    RunAppend(InitialState, trip, [Click(Farmer)]);
    var s1 := HandleEntityClick(landed, Farmer);
    assert s1 == GameState(Position(Boat, Right, Left, Left), Right, 1, 0, false);
    RunCons(landed, Click(Farmer), []);
    assert [Click(Farmer)] + [] == [Click(Farmer)];
  }

  lemma RunCons(s: GameState, a: Action, rest: seq<Action>)
    ensures Run(s, [a] + rest) ==
      var r := Step(s, a);
      if r.outcome.Continue? then Run(r.state, rest) else r
  {
    assert ([a] + rest)[0] == a;
    assert ([a] + rest)[1..] == rest;
  }

  lemma {:induction false} RunAppend(s: GameState, a: seq<Action>, b: seq<Action>)
    ensures Run(s, a + b) ==
      var r := Run(s, a);
      if r.outcome.Continue? then Run(r.state, b) else r
    decreases |a|
  {
    if |a| == 0 {
      assert a + b == b;
    } else {
      assert (a + b)[0] == a[0];
      assert (a + b)[1..] == a[1..] + b;
      var r := Step(s, a[0]);
      if r.outcome.Continue? {
        RunAppend(r.state, a[1..], b);
      }
    }
  }

  function AllOn(side: Side): Position {
    Position(side, side, side, side)
  }

  /** One round in three crossings: farmer, wolf and cabbage cross; the farmer
      returns alone; farmer and sheep cross. */
  function QuickRound(time: nat): seq<Action> {
    [Click(Wolf), Click(Cabbage), Click(Farmer), CrossRiver(time),
     Click(Farmer), CrossRiver(time),
     Click(Sheep), Click(Farmer), CrossRiver(time)]
  }

  /** The state at the start of round `crossing`: everybody on the bank the
      round leaves from, the boat moored there. */
  function RoundStart(crossing: nat, moves: nat): GameState {
    var from := Opposite(TargetSide(crossing));
    GameState(AllOn(from), from, moves, crossing, false)
  }

  lemma QuickRoundFirstTrip(from: Side, moves: nat, crossing: nat, time: nat)
    requires from == Opposite(TargetSide(crossing))
    ensures
      var to := Opposite(from);
      Run(RoundStart(crossing, moves), [Click(Wolf), Click(Cabbage), Click(Farmer), CrossRiver(time)])
      == Resolution(GameState(Position(to, from, to, to), to, moves + 1, crossing, false), Continue)
  {
    var to := Opposite(from);
    var s := RoundStart(crossing, moves);
    var s1 := HandleEntityClick(s, Wolf);
    assert s1.position == Position(from, from, Boat, from);
    var s2 := HandleEntityClick(s1, Cabbage);
    assert s2.position == Position(from, from, Boat, Boat);
    var s3 := HandleEntityClick(s2, Farmer);
    assert s3.position == Position(Boat, from, Boat, Boat);
    PositionExtensionality(Ferry(s3.position, to), Position(to, from, to, to));
    assert Landed(s3) == GameState(Position(to, from, to, to), to, moves + 1, crossing, false);
    RunCons(s, Click(Wolf), [Click(Cabbage), Click(Farmer), CrossRiver(time)]);
    RunCons(s1, Click(Cabbage), [Click(Farmer), CrossRiver(time)]);
    RunCons(s2, Click(Farmer), [CrossRiver(time)]);
    RunCons(s3, CrossRiver(time), []);
  }

  lemma QuickRoundReturnTrip(from: Side, moves: nat, crossing: nat, time: nat)
    requires from == Opposite(TargetSide(crossing))
    requires crossing < TotalCrossings
    ensures
      var to := Opposite(from);
      Run(GameState(Position(to, from, to, to), to, moves, crossing, false), [Click(Farmer), CrossRiver(time)])
      == Resolution(GameState(Position(from, from, to, to), from, moves + 1, crossing, false), Continue)
  {
    var to := Opposite(from);
    var s := GameState(Position(to, from, to, to), to, moves, crossing, false);
    var s1 := HandleEntityClick(s, Farmer);
    assert s1.position == Position(Boat, from, to, to);
    PositionExtensionality(Ferry(s1.position, from), Position(from, from, to, to));
    assert Landed(s1) == GameState(Position(from, from, to, to), from, moves + 1, crossing, false);
    RunCons(s, Click(Farmer), [CrossRiver(time)]);
    RunCons(s1, CrossRiver(time), []);
  }

  /** Landing with everybody on the round's target bank finishes the round. */
  lemma JudgeRoundDone(to: Side, moves: nat, crossing: nat, time: nat)
    requires to == TargetSide(crossing)
    ensures
      var landed := GameState(AllOn(to), to, moves, crossing, false);
      Judge(landed, time)
      == if crossing + 1 < TotalCrossings
         then Resolution(landed.(currentCrossing := crossing + 1), Continue)
         else Resolution(landed, Complete(moves, CalculateScore(moves, time)))
  {
    assert IsValidState(AllOn(to)).valid;
    assert IsRoundComplete(AllOn(to), crossing);
  }

  lemma QuickRoundLastTrip(from: Side, moves: nat, crossing: nat, time: nat)
    requires from == Opposite(TargetSide(crossing))
    requires crossing < TotalCrossings
    ensures
      var to := Opposite(from);
      Run(GameState(Position(from, from, to, to), from, moves, crossing, false),
          [Click(Sheep), Click(Farmer), CrossRiver(time)])
      == Judge(GameState(AllOn(to), to, moves + 1, crossing, false), time)
  {
    var to := Opposite(from);
    var s := GameState(Position(from, from, to, to), from, moves, crossing, false);
    var s1 := HandleEntityClick(s, Sheep);
    assert s1.position == Position(from, Boat, to, to);
    var s2 := HandleEntityClick(s1, Farmer);
    assert s2.position == Position(Boat, Boat, to, to);
    PositionExtensionality(Ferry(s2.position, to), AllOn(to));
    var landed := GameState(AllOn(to), to, moves + 1, crossing, false);
    assert Landed(s2) == landed;
    RunCons(s2, CrossRiver(time), []);
    RunCons(s1, Click(Farmer), [CrossRiver(time)]);
    RunCons(s, Click(Sheep), [Click(Farmer), CrossRiver(time)]);
  }

  /** A quick round moves everybody across in three crossings and advances
      the round counter, or completes the game after the last round, index 19. */
  lemma QuickRoundEffect(crossing: nat, moves: nat, time: nat)
    requires crossing < TotalCrossings
    ensures Run(RoundStart(crossing, moves), QuickRound(time)) ==
      if crossing + 1 < TotalCrossings
      then Resolution(RoundStart(crossing + 1, moves + 3), Continue)
      else Resolution(GameState(AllOn(TargetSide(crossing)), TargetSide(crossing), moves + 3, crossing, false),
                      Complete(moves + 3, CalculateScore(moves + 3, time)))
  {
    var from := Opposite(TargetSide(crossing));
    var to := Opposite(from);
    TargetAlternates(crossing);
    var first := [Click(Wolf), Click(Cabbage), Click(Farmer), CrossRiver(time)];
    var back := [Click(Farmer), CrossRiver(time)];
    var last := [Click(Sheep), Click(Farmer), CrossRiver(time)];
    assert QuickRound(time) == first + (back + last);
    QuickRoundFirstTrip(from, moves, crossing, time);
    RunAppend(RoundStart(crossing, moves), first, back + last);
    var s1 := GameState(Position(to, from, to, to), to, moves + 1, crossing, false);
    QuickRoundReturnTrip(from, moves + 1, crossing, time);
    RunAppend(s1, back, last);
    QuickRoundLastTrip(from, moves + 2, crossing, time);
    JudgeRoundDone(to, moves + 3, crossing, time);
  }

  function QuickGame(rounds: nat, time: nat): seq<Action> {
    if rounds == 0 then [] else QuickRound(time) + QuickGame(rounds - 1, time)
  }

  lemma {:induction false} QuickGameFrom(crossing: nat, moves: nat, time: nat)
    requires crossing < TotalCrossings
    ensures
      var total := moves + 3 * (TotalCrossings - crossing);
      Run(RoundStart(crossing, moves), QuickGame(TotalCrossings - crossing, time)).outcome
      == Complete(total, CalculateScore(total, time))
    decreases TotalCrossings - crossing
  {
    if crossing + 1 < TotalCrossings {
      QuickGameNextRound(crossing, moves, time);
      QuickGameFrom(crossing + 1, moves + 3, time);
    } else {
      QuickGameLastRound(crossing, moves, time);
    }
  }

  /** Before the last round, a quick game is its first round followed by the
      quick game of the remaining rounds. */
  lemma QuickGameNextRound(crossing: nat, moves: nat, time: nat)
    requires crossing + 1 < TotalCrossings
    ensures Run(RoundStart(crossing, moves), QuickGame(TotalCrossings - crossing, time))
         == Run(RoundStart(crossing + 1, moves + 3), QuickGame(TotalCrossings - (crossing + 1), time))
  {
    var rest := QuickGame(TotalCrossings - (crossing + 1), time);
    assert QuickGame(TotalCrossings - crossing, time) == QuickRound(time) + rest;
    RunAppend(RoundStart(crossing, moves), QuickRound(time), rest);
    QuickRoundEffect(crossing, moves, time);
  }

  /** The last quick round completes the game. */
  lemma QuickGameLastRound(crossing: nat, moves: nat, time: nat)
    requires crossing + 1 == TotalCrossings
    ensures Run(RoundStart(crossing, moves), QuickGame(1, time)).outcome
         == Complete(moves + 3, CalculateScore(moves + 3, time))
  {
    assert QuickGame(1, time) == QuickRound(time) + [];
    RunAppend(RoundStart(crossing, moves), QuickRound(time), []);
    QuickRoundEffect(crossing, moves, time);
  }

  /** All twenty rounds can be won in 60 crossings, well under the 140 the
      score treats as optimal, and that faster game scores less than a game
      of exactly 140 crossings at the same time. */
  lemma WinInSixtyMoves(time: nat)
    ensures Run(InitialState, QuickGame(TotalCrossings, time)).outcome == Complete(60, CalculateScore(60, time))
    ensures 60 < OptimalMoves
    ensures CalculateScore(60, time) < CalculateScore(OptimalMoves, time)
  {
    assert RoundStart(0, 0) == InitialState;
    QuickGameFrom(0, 0, time);
  }
}
