/** The bot's records and its compiled-in constants. */
module Entities {
  import opened Geometry

  // Structure types as the referee reports them.
  const Goldmine: int := 0
  const Tower: int := 1
  const Barracks: int := 2

  // Unit types; a barracks' param2 holds the unit type it trains.
  const Queen: int := -1
  const Knight: int := 0
  const Archer: int := 1
  const Giant: int := 2

  // Owners.
  const Friendly: int := 0
  const Neutral: int := -1
  const Enemy: int := 1

  const FieldWidth: int := 1920
  const FieldHeight: int := 1000

  /** At most this many knights alive before training stops. */
  const MaxKnights: int := 12
  /** Towers are grown until their range parameter reaches this. */
  const MinTowerRangeConstruction: int := 500
  /** A mine with at most this much gold left is treated as depleted. */
  const IgnoreGoldmine: int := 10
  /** The gold threshold and price of one training order. */
  const KnightCost: int := 80
  /** An enemy unit closer than this to a position counts as near. */
  const AlertRadius: nat := 150

  /** The site ID the searches return when nothing qualifies. */
  const NoSite: int := -1

  /** One capturable site. position and radius are fixed at start-up; the
      other fields are overwritten each turn or derived from positions. */
  datatype Site = Site(
    id: int,
    position: Position,
    radius: int,
    structureType: int,
    owner: int,
    param1: int,
    param2: int,
    distanceFromMyQueen: int,
    distanceFromEnemyQueen: int,
    distanceFromStartingLocation: int,
    maxMineSize: int,
    goldRemaining: int)

  /** The record created for a site at start-up: every field zero except the
      recorded ones and the owner, which is neutral. Zero is also the
      structure type of a gold mine. */
  function FreshSite(id: int, position: Position, radius: int): Site
  {
    Site(id, position, radius, Goldmine, Neutral, 0, 0, 0, 0, 0, 0, 0)
  }

  datatype Unit = Unit(position: Position, health: int, owner: int, unitType: int)

  /** The zero-valued unit the game starts with in both queen slots. */
  const NoUnit: Unit := Unit(Position(0, 0), 0, 0, 0)

  /** A site ID paired with its truncated distance from the queen's start. */
  datatype SiteAndDistance = SiteAndDistance(id: int, value: int)

  /** Reading a counter map: a missing key reads as zero. */
  function Lookup(m: map<int, int>, k: int): int
  {
    if k in m then m[k] else 0
  }

  /** A non-empty set of keys has a member to visit next. */
  lemma NonEmptyHasElement(s: set<int>)
    requires s != {}
    ensures exists x :: x in s
  {
    if forall x :: x !in s {
      assert false;
    }
  }
}
