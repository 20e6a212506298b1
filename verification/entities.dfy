/** The parts of the game world the controller reads: positions, units,
    beacons, and the world query surface `W`. */
module Entities {
  import opened Choice

  type TeamId = nat

  datatype Point = Point(x: int, y: int)

  /** The game's `dist`. The model makes no assumption about it beyond
      returning a non-negative whole number, so the results do not depend on
      which such distance the game uses. */
  type Distance = (Point, Point) -> nat

  /** `dist(a, b) < radius`. */
  predicate Closer(dist: Distance, a: Point, b: Point, radius: nat) {
    dist(a, b) < radius
  }

  /** `dist(a, b) <= radius`. */
  predicate NoFarther(dist: Distance, a: Point, b: Point, radius: nat) {
    dist(a, b) <= radius
  }

  /** A unit; `id` stands for the identity of the JavaScript object. */
  datatype Unit = Unit(id: nat, pos: Point, team: TeamId, health: int)

  /** The `dead` flag: a unit whose health has run out. */
  predicate Dead(u: Unit) {
    u.health <= 0
  }

  /** A beacon; `owner` is `None` while the beacon is neutral. */
  datatype Beacon = Beacon(id: nat, pos: Point, owner: Option<TeamId>)

  /** The world query surface: `W.units`, `W.cyclables`, `W.beacons`,
      `W.pointInObstacle`, each team's `enemy`, and `dist`. `unitNow` and
      `beaconNow` give the current state of the unit or beacon object with a
      given identity, whether or not the world still lists it: a decision's
      closures keep a reference to their target and read it directly. */
  datatype World = World(
    units: seq<Unit>,
    cyclables: seq<Unit>,
    beacons: seq<Beacon>,
    inObstacle: Point -> bool,
    enemyOf: TeamId -> TeamId,
    dist: Distance,
    unitNow: nat -> Unit,
    beaconNow: nat -> Beacon)

  /** The current state of a unit a decision refers to. */
  function LatestUnit(w: World, u: Unit): Unit {
    w.unitNow(u.id)
  }

  /** The current state of a beacon a decision refers to. */
  function LatestBeacon(w: World, b: Beacon): Beacon {
    w.beaconNow(b.id)
  }

  /** The world lists units, cyclable units and beacons in their current
      state. */
  predicate WellFormed(w: World) {
    && (forall i :: 0 <= i < |w.units| ==> w.unitNow(w.units[i].id) == w.units[i])
    && (forall i :: 0 <= i < |w.beacons| ==> w.beaconNow(w.beacons[i].id) == w.beacons[i])
    && (forall i :: 0 <= i < |w.cyclables| ==> w.unitNow(w.cyclables[i].id) == w.cyclables[i])
  }

  /** In a well-formed world, the current state of a listed unit, cyclable
      or not, is the listed one. */
  lemma LatestOfListedUnit(w: World, u: Unit)
    requires WellFormed(w) && (u in w.units || u in w.cyclables)
    ensures LatestUnit(w, u) == u
  {
    if u in w.units {
      var i :| 0 <= i < |w.units| && w.units[i] == u;
    } else {
      var i :| 0 <= i < |w.cyclables| && w.cyclables[i] == u;
    }
  }

  /** In a well-formed world, the current state of a listed beacon is the
      listed one. */
  lemma LatestOfListedBeacon(w: World, b: Beacon)
    requires WellFormed(w) && b in w.beacons
    ensures LatestBeacon(w, b) == b
  {
    var i :| 0 <= i < |w.beacons| && w.beacons[i] == b;
  }
}
