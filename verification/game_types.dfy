/** The vocabulary of the river-crossing puzzle: the four entities, the three
    places an entity can be, and a position that gives every entity exactly
    one place (src/types/game.ts). */
module GameTypes {

  datatype Entity = Farmer | Sheep | Wolf | Cabbage

  datatype Location = Left | Right | Boat

  /** A river bank: the places the boat itself can be moored at. */
  type Side = l: Location | l != Boat witness Left

  /** A total record with one field per entity. */
  datatype Position = Position(farmer: Location, sheep: Location, wolf: Location, cabbage: Location)

  /** The entities in the order the position record lists its keys. */
  const AllEntities: seq<Entity> := [Farmer, Sheep, Wolf, Cabbage]

  function Opposite(s: Side): (r: Side)
    ensures r != s
  {
    if s == Left then Right else Left
  }

  /** `position[entity]` */
  function At(p: Position, e: Entity): Location {
    match e
    case Farmer => p.farmer
    case Sheep => p.sheep
    case Wolf => p.wolf
    case Cabbage => p.cabbage
  }

  /** `{ ...position, [entity]: loc }` */
  function With(p: Position, e: Entity, loc: Location): (r: Position)
    ensures At(r, e) == loc
    ensures forall e' :: e' != e ==> At(r, e') == At(p, e')
  {
    match e
    case Farmer => p.(farmer := loc)
    case Sheep => p.(sheep := loc)
    case Wolf => p.(wolf := loc)
    case Cabbage => p.(cabbage := loc)
  }

  lemma AllEntitiesListsEveryEntity(e: Entity)
    ensures e in AllEntities
  {
  }

  /** Two positions that agree on every entity are the same position. */
  lemma PositionExtensionality(p: Position, q: Position)
    requires forall e :: At(p, e) == At(q, e)
    ensures p == q
  {
    assert At(p, Farmer) == At(q, Farmer);
    assert At(p, Sheep) == At(q, Sheep);
    assert At(p, Wolf) == At(q, Wolf);
    assert At(p, Cabbage) == At(q, Cabbage);
  }
}
