/** The four candidate queries of the autonomous controller and the health
    measures they are built on. Each query filters a world list and picks one
    survivor, or returns nothing when none survives. */
module Queries {
  import opened Choice
  import opened Entities
  import opened Health

  /** What a controller sees when it queries its surroundings:
      - `world`: the world query surface `W`;
      - `me`: the current state of the unit the controller is attached to;
      - `radius`: the attack radius all proximity thresholds derive from;
      - `ownBeacon`: the identity of `this.beacon`, when one is set;
      - `retreatSamples`: the points sampled on the circle around the unit. */
  datatype Scene = Scene(
    world: World,
    me: Unit,
    radius: nat,
    ownBeacon: Option<nat>,
    retreatSamples: seq<Point>)

  /** `this.unit.team.enemy`. */
  function EnemyTeam(s: Scene): TeamId {
    s.world.enemyOf(s.me.team)
  }

  /** `healthAroundSelf()`: the unit's own team's health within twice the
      attack radius of the unit. */
  function HealthAroundSelf(s: Scene): (r: int)
    ensures NoNegativeHealth(s.world.units) ==>
      && r >= 0
      && (r > 0 <==> LivingIn(s.world.units, s.world.dist, s.me.pos, s.me.team, 2 * s.radius))
  {
    LivingInIff(s.world.units, s.world.dist, s.me.pos, s.me.team, 2 * s.radius);
    HealthInArea(s.world.units, s.world.dist, s.me.pos, s.me.team, 2 * s.radius)
  }

  /** With no negative health around, a positive attack radius and a unit at
      distance 0 from itself, a listed unit counts its own health in the health around itself. */
  lemma HealthAroundSelfCountsSelf(s: Scene)
    requires NoNegativeHealth(s.world.units) && s.me in s.world.units
    requires s.world.dist(s.me.pos, s.me.pos) == 0 && s.radius > 0
    ensures HealthAroundSelf(s) >= s.me.health
  {
    var i :| 0 <= i < |s.world.units| && s.world.units[i] == s.me;
    AreaHealthCountsMember(s.world.units, s.world.dist, i, s.me.pos, s.me.team, 2 * s.radius);
  }

  /** A retreat point: outside every obstacle, and no enemy health within
      twice the attack radius of it. */
  predicate SafeRetreat(s: Scene, p: Point) {
    !s.world.inObstacle(p) && HealthInArea(s.world.units, s.world.dist, p, EnemyTeam(s), 2 * s.radius) <= 0
  }

  function SafeRetreats(s: Scene): Point -> bool {
    (p: Point) => SafeRetreat(s, p)
  }

  /** `retreatPosition()`, given the sampled points. */
  function RetreatPosition(s: Scene, k: nat): (r: Option<Point>)
    ensures r.Some? ==> r.value in s.retreatSamples && SafeRetreat(s, r.value)
    ensures r.None? <==> forall i :: 0 <= i < |s.retreatSamples| ==> !SafeRetreat(s, s.retreatSamples[i])
  {
    Pick(Filter(s.retreatSamples, SafeRetreats(s)), k)
  }

  /** An attack target: an enemy whose team's health within twice the attack
      radius of it does not exceed the health around the unit itself. */
  predicate Attackable(s: Scene, u: Unit) {
    && u.team == EnemyTeam(s)
    && HealthInArea(s.world.units, s.world.dist, u.pos, u.team, 2 * s.radius) <= HealthAroundSelf(s)
  }

  function Attackables(s: Scene): Unit -> bool {
    (u: Unit) => Attackable(s, u)
  }

  /** `enemyUnit()`: an attackable cyclable unit. */
  function EnemyUnit(s: Scene, k: nat): (r: Option<Unit>)
    ensures r.Some? ==> r.value in s.world.cyclables && Attackable(s, r.value)
    ensures r.None? <==> forall i :: 0 <= i < |s.world.cyclables| ==> !Attackable(s, s.world.cyclables[i])
  {
    Pick(Filter(s.world.cyclables, Attackables(s)), k)
  }

  /** A regroup partner: another unit of the same team with no enemy health
      within twice the attack radius of it. */
  predicate Regroupable(s: Scene, u: Unit) {
    && u.id != s.me.id
    && u.team == s.me.team
    && HealthInArea(s.world.units, s.world.dist, u.pos, s.world.enemyOf(u.team), 2 * s.radius) <= 0
  }

  function Regroupables(s: Scene): Unit -> bool {
    (u: Unit) => Regroupable(s, u)
  }

  /** `friendlyUnit()`: a regroup partner among the world's units. */
  function FriendlyUnit(s: Scene, k: nat): (r: Option<Unit>)
    ensures r.Some? ==> r.value in s.world.units && Regroupable(s, r.value)
    ensures r.Some? ==> r.value.id != s.me.id && r.value.team == s.me.team
    ensures r.None? <==> forall i :: 0 <= i < |s.world.units| ==> !Regroupable(s, s.world.units[i])
  {
    Pick(Filter(s.world.units, Regroupables(s)), k)
  }

  /** A beacon worth conquering: not the controller's own beacon, not owned
      by the unit's team, with no enemy health within twice the attack radius
      of it. */
  predicate Conquerable(s: Scene, b: Beacon) {
    && s.ownBeacon != Some(b.id)
    && b.owner != Some(s.me.team)
    && HealthInArea(s.world.units, s.world.dist, b.pos, EnemyTeam(s), 2 * s.radius) <= 0
  }

  function Conquerables(s: Scene): Beacon -> bool {
    (b: Beacon) => Conquerable(s, b)
  }

  /** `conquerableBeacon()`: a conquerable beacon of the world. */
  function ConquerableBeacon(s: Scene, k: nat): (r: Option<Beacon>)
    ensures r.Some? ==> r.value in s.world.beacons && Conquerable(s, r.value)
    ensures r.Some? ==> s.ownBeacon != Some(r.value.id) && r.value.owner != Some(s.me.team)
    ensures r.None? <==> forall i :: 0 <= i < |s.world.beacons| ==> !Conquerable(s, s.world.beacons[i])
  {
    Pick(Filter(s.world.beacons, Conquerables(s)), k)
  }

  /** Every safe sample point is a possible retreat position. */
  lemma RetreatPositionReachesEvery(s: Scene, p: Point)
    requires p in s.retreatSamples && SafeRetreat(s, p)
    ensures exists k: nat :: RetreatPosition(s, k) == Some(p)
  {
    PickFilterReaches(s.retreatSamples, SafeRetreats(s), p);
    var k: nat :| Pick(Filter(s.retreatSamples, SafeRetreats(s)), k) == Some(p);
    assert RetreatPosition(s, k) == Some(p);
  }

  /** Every attackable cyclable unit is a possible attack target. */
  lemma EnemyUnitReachesEvery(s: Scene, u: Unit)
    requires u in s.world.cyclables && Attackable(s, u)
    ensures exists k: nat :: EnemyUnit(s, k) == Some(u)
  {
    PickFilterReaches(s.world.cyclables, Attackables(s), u);
    var k: nat :| Pick(Filter(s.world.cyclables, Attackables(s)), k) == Some(u);
    assert EnemyUnit(s, k) == Some(u);
  }

  /** Every regroupable unit is a possible regroup partner. */
  lemma FriendlyUnitReachesEvery(s: Scene, u: Unit)
    requires u in s.world.units && Regroupable(s, u)
    ensures exists k: nat :: FriendlyUnit(s, k) == Some(u)
  {
    PickFilterReaches(s.world.units, Regroupables(s), u);
    var k: nat :| Pick(Filter(s.world.units, Regroupables(s)), k) == Some(u);
    assert FriendlyUnit(s, k) == Some(u);
  }

  /** Every conquerable beacon is a possible conquest. */
  lemma ConquerableBeaconReachesEvery(s: Scene, b: Beacon)
    requires b in s.world.beacons && Conquerable(s, b)
    ensures exists k: nat :: ConquerableBeacon(s, k) == Some(b)
  {
    PickFilterReaches(s.world.beacons, Conquerables(s), b);
    var k: nat :| Pick(Filter(s.world.beacons, Conquerables(s)), k) == Some(b);
    assert ConquerableBeacon(s, k) == Some(b);
  }

  /** An enemy whose defending health exceeds the health around the unit is
      never chosen as an attack target. */
  lemma AttackRejectsStrongerDefence(s: Scene, u: Unit)
    requires u.team == EnemyTeam(s)
    requires HealthInArea(s.world.units, s.world.dist, u.pos, u.team, 2 * s.radius) > HealthAroundSelf(s)
    ensures forall k: nat :: EnemyUnit(s, k) != Some(u)
  {
  }
}
