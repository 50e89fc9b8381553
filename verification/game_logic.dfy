/** The rules engine of the puzzle (src/logic/gameLogic.ts): bank safety,
    boarding eligibility, boat capacity, round completion and the score. */
module GameLogic {
  import opened Wrappers
  import opened GameTypes

  const InitialPosition: Position := Position(Left, Left, Left, Left)
  const WinningPosition: Position := Position(Right, Right, Right, Right)

  const WolfAteSheep: string := "The wolf ate the sheep!"
  const SheepAteCabbage: string := "The sheep ate the cabbage!"

  /** The result record `{ valid, reason? }`. */
  datatype Validation = Validation(valid: bool, reason: Option<string>)

  /** The entities of `es`, in order, whose location is `loc`: the bank lists
      built by pushing every key whose value matches. */
  function Occupants(p: Position, es: seq<Entity>, loc: Location): (r: seq<Entity>)
    ensures forall e :: e in r <==> e in es && At(p, e) == loc
  {
    if |es| == 0 then []
    else
      var rest := Occupants(p, es[1..], loc);
      if At(p, es[0]) == loc then [es[0]] + rest else rest
  }

  /** The contents of one bank (or of the boat), listed in key order. */
  function Contents(p: Position, loc: Location): seq<Entity> {
    Occupants(p, AllEntities, loc)
  }

  /** The check applied to one bank's list: farmerless banks must not hold the
      wolf with the sheep, and then must not hold the sheep with the cabbage. */
  function CheckBank(bank: seq<Entity>): Option<string> {
    if Farmer !in bank then
      if Wolf in bank && Sheep in bank then Some(WolfAteSheep)
      else if Sheep in bank && Cabbage in bank then Some(SheepAteCabbage)
      else None
    else None
  }

  /** Independent statement of the danger on one bank, read off the position. */
  predicate Unsafe(p: Position, bank: Side) {
    && At(p, Farmer) != bank
    && At(p, Sheep) == bank
    && (At(p, Wolf) == bank || At(p, Cabbage) == bank)
  }

  predicate WolfMeetsSheep(p: Position, bank: Side) {
    At(p, Farmer) != bank && At(p, Sheep) == bank && At(p, Wolf) == bank
  }

  predicate SheepMeetsCabbage(p: Position, bank: Side) {
    At(p, Farmer) != bank && At(p, Sheep) == bank && At(p, Cabbage) == bank && At(p, Wolf) != bank
  }

  /** `isValidState`: the left bank is checked first, then the right. */
  function IsValidState(p: Position): (r: Validation)
    ensures r.valid <==> !Unsafe(p, Left) && !Unsafe(p, Right)
    ensures r.reason.Some? <==> !r.valid
    ensures r.reason == Some(WolfAteSheep) <==> WolfMeetsSheep(p, Left) || WolfMeetsSheep(p, Right)
    ensures r.reason == Some(SheepAteCabbage) <==> SheepMeetsCabbage(p, Left) || SheepMeetsCabbage(p, Right)
  {
    match CheckBank(Contents(p, Left))
    case Some(reason) => Validation(false, Some(reason))
    case None =>
      match CheckBank(Contents(p, Right))
      case Some(reason) => Validation(false, Some(reason))
      case None => Validation(true, None)
  }

  /** Both dangerous pairs contain the sheep, so at most one bank is unsafe. */
  lemma AtMostOneUnsafeBank(p: Position)
    ensures !(Unsafe(p, Left) && Unsafe(p, Right))
  {
  }

  /** Checking the right bank before the left gives the same verdict and reason. */
  lemma CheckOrderIrrelevant(p: Position)
    ensures IsValidState(p) ==
      match CheckBank(Contents(p, Right))
      case Some(reason) => Validation(false, Some(reason))
      case None =>
        match CheckBank(Contents(p, Left))
        case Some(reason) => Validation(false, Some(reason))
        case None => Validation(true, None)
  {
    var l := CheckBank(Contents(p, Left));
    var r := CheckBank(Contents(p, Right));
    assert l.Some? <==> Unsafe(p, Left);
    assert r.Some? <==> Unsafe(p, Right);
  }

  /** The bank check looks at membership only, so the order in which the
      bank lists are built does not affect the verdict. */
  lemma CheckBankDependsOnMembership(a: seq<Entity>, b: seq<Entity>)
    requires forall e :: e in a <==> e in b
    ensures CheckBank(a) == CheckBank(b)
  {
  }

  /** Taking a non-farmer off a bank and into the boat never makes a safe
      position unsafe. */
  lemma BoardingItemKeepsValid(p: Position, e: Entity)
    requires e != Farmer
    requires IsValidState(p).valid
    ensures IsValidState(With(p, e, Boat)).valid
  {
  }

  /** `canMoveEntity`: the farmer may always move; anyone else only together
      with the farmer. */
  function CanMoveEntity(e: Entity, p: Position): (r: bool)
    ensures e == Farmer ==> r
    ensures e != Farmer ==> (r <==> At(p, e) == At(p, Farmer))
  {
    if e == Farmer then true else At(p, e) == p.farmer
  }

  /** While the farmer sits in the boat nobody on a bank may be moved except
      the farmer. */
  lemma NoItemMovesWhileFarmerAboard(p: Position, e: Entity)
    requires At(p, Farmer) == Boat
    requires At(p, e) != Boat
    ensures CanMoveEntity(e, p) <==> e == Farmer
  {
  }

  /** Number of entities in the boat, counted entity by entity. */
  function BoatLoad(p: Position): nat {
    (if p.farmer == Boat then 1 else 0) + (if p.sheep == Boat then 1 else 0)
    + (if p.wolf == Boat then 1 else 0) + (if p.cabbage == Boat then 1 else 0)
  }

  /** Number of non-farmers in the boat. */
  function ItemsAboard(p: Position): nat {
    (if p.sheep == Boat then 1 else 0) + (if p.wolf == Boat then 1 else 0)
    + (if p.cabbage == Boat then 1 else 0)
  }

  /** The boat's list holds exactly as many entries as there are entities aboard. */
  lemma BoatContentsCount(p: Position)
    ensures |Contents(p, Boat)| == BoatLoad(p)
  {
    var es := AllEntities;
    assert es[1..] == [Sheep, Wolf, Cabbage];
    assert es[1..][1..] == [Wolf, Cabbage];
    assert es[1..][1..][1..] == [Cabbage];
    assert es[1..][1..][1..][1..] == [];
  }

  /** Two distinct entities in the boat exist exactly when the load is two or more. */
  lemma TwoAboardWitness(p: Position)
    ensures BoatLoad(p) >= 2 <==> exists e1, e2 :: e1 != e2 && At(p, e1) == Boat && At(p, e2) == Boat
  {
    if BoatLoad(p) >= 2 {
      if p.farmer == Boat && p.sheep == Boat { assert At(p, Farmer) == Boat && At(p, Sheep) == Boat; }
      else if p.farmer == Boat && p.wolf == Boat { assert At(p, Farmer) == Boat && At(p, Wolf) == Boat; }
      else if p.farmer == Boat && p.cabbage == Boat { assert At(p, Farmer) == Boat && At(p, Cabbage) == Boat; }
      else if p.sheep == Boat && p.wolf == Boat { assert At(p, Sheep) == Boat && At(p, Wolf) == Boat; }
      else if p.sheep == Boat && p.cabbage == Boat { assert At(p, Sheep) == Boat && At(p, Cabbage) == Boat; }
      else { assert At(p, Wolf) == Boat && At(p, Cabbage) == Boat; }
    }
  }

  /** `isBoatFull`: at least two of the four entities are in the boat. */
  function IsBoatFull(p: Position): (r: bool)
    ensures r <==> BoatLoad(p) >= 2
    ensures r <==> exists e1, e2 :: e1 != e2 && At(p, e1) == Boat && At(p, e2) == Boat
  {
    BoatContentsCount(p);
    TwoAboardWitness(p);
    |Contents(p, Boat)| >= 2
  }

  /** `getBoatSide`: the bank the farmer stands on, and Left while the farmer
      is in the boat. */
  function GetBoatSide(p: Position): (r: Side)
    ensures At(p, Farmer) != Boat ==> r == At(p, Farmer)
    ensures At(p, Farmer) == Boat ==> r == Left
  {
    if p.farmer == Left || p.farmer == Boat then Left else Right
  }

  /** `isWinning`: everybody on the right bank. */
  function IsWinning(p: Position): (r: bool)
    ensures r <==> forall e :: At(p, e) == Right
    ensures r <==> p == WinningPosition
  {
    assert At(p, Farmer) == p.farmer && At(p, Sheep) == p.sheep;
    assert At(p, Wolf) == p.wolf && At(p, Cabbage) == p.cabbage;
    p.farmer == Right && p.sheep == Right && p.wolf == Right && p.cabbage == Right
  }

  /** The bank a round must finish on: even rounds end on the right, odd
      rounds back on the left. */
  function TargetSide(crossing: nat): Side {
    if crossing % 2 == 0 then Right else Left
  }

  lemma TargetAlternates(crossing: nat)
    ensures TargetSide(crossing + 1) == Opposite(TargetSide(crossing))
  {
  }

  /** `isRoundComplete`. */
  function IsRoundComplete(p: Position, crossing: nat): (r: bool)
    ensures r <==> forall e :: At(p, e) == TargetSide(crossing)
  {
    var target := TargetSide(crossing);
    assert At(p, Farmer) == p.farmer && At(p, Sheep) == p.sheep;
    assert At(p, Wolf) == p.wolf && At(p, Cabbage) == p.cabbage;
    p.farmer == target && p.sheep == target && p.wolf == target && p.cabbage == target
  }

  /** On even rounds completion is exactly the winning position. */
  lemma EvenRoundCompleteIsWinning(p: Position, crossing: nat)
    requires crossing % 2 == 0
    ensures IsRoundComplete(p, crossing) == IsWinning(p)
  {
  }

  /** No round completes while anyone is still in the boat. */
  lemma RoundIncompleteWhileAboard(p: Position, crossing: nat, e: Entity)
    requires At(p, e) == Boat
    ensures !IsRoundComplete(p, crossing)
  {
  }

  /** The starting position completes exactly the odd rounds, and so not
      round 0, the one the game starts in. */
  lemma InitialCompletesOddRounds(crossing: nat)
    ensures IsRoundComplete(InitialPosition, crossing) <==> crossing % 2 == 1
  {
  }

  const OptimalMoves: int := 7 * 20
  const BaseScore: int := 10000

  function Max(a: int, b: int): int {
    if a >= b then a else b
  }

  /** `calculateScore`: a base score, minus ten per move beyond 140, plus five
      per second under ten minutes, plus 5000 for exactly 140 moves, floored
      at zero. */
  function CalculateScore(moves: nat, time: nat): (r: int)
    ensures r >= 0
    ensures moves < OptimalMoves ==> r == BaseScore + 5 * Max(0, 600 - time)
    ensures moves == OptimalMoves ==> r == 15000 + 5 * Max(0, 600 - time)
  {
    var movePenalty := Max(0, (moves - OptimalMoves) * 10);
    var timeBonus := if time < 600 then Max(0, (600 - time) * 5) else 0;
    var perfectBonus := if moves == OptimalMoves then 5000 else 0;
    Max(0, BaseScore - movePenalty + timeBonus + perfectBonus)
  }

  lemma ScoreNonIncreasingInTime(moves: nat, t1: nat, t2: nat)
    requires t1 <= t2
    ensures CalculateScore(moves, t2) <= CalculateScore(moves, t1)
  {
  }

  /** Beyond the optimum every extra move costs (until the floor at zero). */
  lemma ScoreNonIncreasingInMoves(m1: nat, m2: nat, time: nat)
    requires OptimalMoves < m1 <= m2
    ensures CalculateScore(m2, time) <= CalculateScore(m1, time)
  {
  }

  /** The first move beyond the optimum forfeits the 5000-point bonus and
      costs ten points. */
  lemma FirstExtraMove(time: nat)
    ensures CalculateScore(OptimalMoves + 1, time) == 9990 + 5 * Max(0, 600 - time)
  {
  }

  /** Beyond the optimum each further move costs exactly ten points, down to
      the floor at zero. */
  lemma ExtraMoveCostsTen(moves: nat, time: nat)
    requires moves > OptimalMoves
    ensures CalculateScore(moves + 1, time) == Max(0, CalculateScore(moves, time) - 10)
  {
  }

  lemma ScoreExamples()
    ensures CalculateScore(140, 300) == 16500
    ensures CalculateScore(140, 600) == 15000
    ensures CalculateScore(160, 700) == 9800
  {
  }
}
