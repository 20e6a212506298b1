/** Decisions: the four tactical options, when each one is done or bad, and
    the list of candidates the controller builds when it reconsiders. */
module Decisions {
  import opened Choice
  import opened Entities
  import opened Health
  import opened Queries

  /** A decision, carrying the target it was built for. The predicates below
      replace the `done`/`bad` closures of the decision records. */
  datatype Decision =
    | Retreat(spot: Point)
    | Attack(target: Unit)
    | Regroup(friend: Unit)
    | Conquer(beacon: Beacon)

  /** The sub-behaviour a decision hands over to: `Reach` a point, or `Chase`
      the unit with the given identity. */
  datatype SubBehavior = Reach(goal: Point) | Chase(quarry: nat)

  /** The behaviour each decision is built with. */
  function BehaviorOf(d: Decision): (b: SubBehavior)
    ensures (d.Retreat? || d.Conquer?) <==> b.Reach?
  {
    match d
    case Retreat(spot) => Reach(spot)
    case Attack(target) => Chase(target.id)
    case Regroup(friend) => Chase(friend.id)
    case Conquer(beacon) => Reach(beacon.pos)
  }

  /** `done()`: the decision has reached its goal.
      - retreat: the unit is at most one attack radius from the spot and no
        enemy health is within one attack radius of the unit;
      - attack: the target is dead;
      - regroup: the friend is strictly within one attack radius;
      - conquer: the beacon belongs to the unit's team.
      With no negative health around, a retreat is done exactly when the
      unit is near the spot and no living enemy is within one radius. */
  predicate Done(s: Scene, d: Decision)
    ensures d.Retreat? && NoNegativeHealth(s.world.units) ==>
      (Done(s, d) <==>
        && NoFarther(s.world.dist, d.spot, s.me.pos, s.radius)
        && !LivingIn(s.world.units, s.world.dist, s.me.pos, EnemyTeam(s), s.radius))
  {
    match d
    case Retreat(spot) =>
      LivingInIff(s.world.units, s.world.dist, s.me.pos, EnemyTeam(s), s.radius);
      && NoFarther(s.world.dist, spot, s.me.pos, s.radius)
      && HealthInArea(s.world.units, s.world.dist, s.me.pos, EnemyTeam(s), s.radius) == 0
    case Attack(target) =>
      Dead(LatestUnit(s.world, target))
    case Regroup(friend) =>
      Closer(s.world.dist, LatestUnit(s.world, friend).pos, s.me.pos, s.radius)
    case Conquer(beacon) =>
      LatestBeacon(s.world, beacon).owner == Some(s.me.team)
  }

  /** `bad()`: the decision is no longer worth pursuing.
      - retreat: enemy health within four attack radii of the spot;
      - attack: the target's team health within one attack radius of it
        exceeds the health around the unit (two radii) by more than 2;
      - regroup: enemy health within one attack radius of the friend exceeds
        the friend's team health there by more than 2;
      - conquer: enemy health within one attack radius of the beacon exceeds
        the unit's team health there by more than 2.
      With no negative health around, a retreat is bad exactly when a living
      enemy stands within four radii of the spot, and any other decision is
      bad only when a living hostile unit stands within one radius of its
      target. */
  predicate Bad(s: Scene, d: Decision)
    ensures d.Retreat? && NoNegativeHealth(s.world.units) ==>
      (Bad(s, d) <==> LivingIn(s.world.units, s.world.dist, d.spot, EnemyTeam(s), 4 * s.radius))
    ensures d.Attack? && NoNegativeHealth(s.world.units) && Bad(s, d) ==>
      var t := LatestUnit(s.world, d.target);
      LivingIn(s.world.units, s.world.dist, t.pos, t.team, s.radius)
    ensures d.Regroup? && NoNegativeHealth(s.world.units) && Bad(s, d) ==>
      var f := LatestUnit(s.world, d.friend);
      LivingIn(s.world.units, s.world.dist, f.pos, s.world.enemyOf(f.team), s.radius)
    ensures d.Conquer? && NoNegativeHealth(s.world.units) && Bad(s, d) ==>
      LivingIn(s.world.units, s.world.dist, LatestBeacon(s.world, d.beacon).pos, EnemyTeam(s), s.radius)
  {
    var units, dist := s.world.units, s.world.dist;
    match d
    case Retreat(spot) =>
      LivingInIff(units, dist, spot, EnemyTeam(s), 4 * s.radius);
      HealthInArea(units, dist, spot, EnemyTeam(s), 4 * s.radius) > 0
    case Attack(target) =>
      var t := LatestUnit(s.world, target);
      LivingInIff(units, dist, t.pos, t.team, s.radius);
      HealthInArea(units, dist, t.pos, t.team, s.radius) > HealthAroundSelf(s) + 2
    case Regroup(friend) =>
      var f := LatestUnit(s.world, friend);
      LivingInIff(units, dist, f.pos, s.world.enemyOf(f.team), s.radius);
      LivingInIff(units, dist, f.pos, f.team, s.radius);
      HealthInArea(units, dist, f.pos, s.world.enemyOf(f.team), s.radius)
        > HealthInArea(units, dist, f.pos, f.team, s.radius) + 2
    case Conquer(beacon) =>
      var b := LatestBeacon(s.world, beacon);
      LivingInIff(units, dist, b.pos, EnemyTeam(s), s.radius);
      LivingInIff(units, dist, b.pos, s.me.team, s.radius);
      HealthInArea(units, dist, b.pos, EnemyTeam(s), s.radius)
        > HealthInArea(units, dist, b.pos, s.me.team, s.radius) + 2
  }

  /** A decision worth (still) following: neither done nor bad. */
  predicate Good(s: Scene, d: Decision) {
    !Done(s, d) && !Bad(s, d)
  }

  function GoodIn(s: Scene): Decision -> bool {
    (d: Decision) => Good(s, d)
  }

  /** The order in which candidates are generated. */
  function Rank(d: Decision): nat {
    match d
    case Retreat(_) => 0
    case Attack(_) => 1
    case Regroup(_) => 2
    case Conquer(_) => 3
  }

  /** The oracle values of the five `pick` calls of one reconsideration. */
  datatype Choices = Choices(retreat: nat, enemy: nat, friend: nat, beacon: nat, decision: nat)

  /** The decisions built from the four query results: one per result
      that is present, carrying that result. */
  function Assemble(retreat: Option<Point>, enemy: Option<Unit>, friend: Option<Unit>, beacon: Option<Beacon>)
    : (r: seq<Decision>)
    ensures |r| <= 4
    ensures forall d :: d in r ==>
      match d
      case Retreat(p) => retreat == Some(p)
      case Attack(u) => enemy == Some(u)
      case Regroup(u) => friend == Some(u)
      case Conquer(b) => beacon == Some(b)
  {
    Listed(retreat, (p: Point) => Retreat(p))
    + Listed(enemy, (u: Unit) => Attack(u))
    + Listed(friend, (u: Unit) => Regroup(u))
    + Listed(beacon, (b: Beacon) => Conquer(b))
  }

  /** The decision built from a query result, if there is one. */
  function Listed<T>(o: Option<T>, make: T -> Decision): seq<Decision>
  {
    if o.Some? then [make(o.value)] else []
  }

  /** Candidates come in the order retreat, attack, regroup, conquer. */
  lemma AssembleInOrder(retreat: Option<Point>, enemy: Option<Unit>, friend: Option<Unit>, beacon: Option<Beacon>)
    ensures var r := Assemble(retreat, enemy, friend, beacon);
            forall i, j :: 0 <= i < j < |r| ==> Rank(r[i]) < Rank(r[j])
  {
  }

  /** Each kind of candidate is present exactly when its query returned
      something. */
  lemma AssemblePresence(retreat: Option<Point>, enemy: Option<Unit>, friend: Option<Unit>, beacon: Option<Beacon>)
    ensures var r := Assemble(retreat, enemy, friend, beacon);
            && (retreat.Some? <==> exists d :: d in r && d.Retreat?)
            && (enemy.Some? <==> exists d :: d in r && d.Attack?)
            && (friend.Some? <==> exists d :: d in r && d.Regroup?)
            && (beacon.Some? <==> exists d :: d in r && d.Conquer?)
  {
    var r := Assemble(retreat, enemy, friend, beacon);
    if retreat.Some? { assert r[0] == Retreat(retreat.value); }
    var a := Listed(retreat, (p: Point) => Retreat(p));
    var b := Listed(enemy, (u: Unit) => Attack(u));
    var c := Listed(friend, (u: Unit) => Regroup(u));
    var e := Listed(beacon, (b: Beacon) => Conquer(b));
    assert r == a + b + c + e;
    if enemy.Some? { assert r[|a|] == Attack(enemy.value); }
    if friend.Some? { assert r[|a| + |b|] == Regroup(friend.value); }
    if beacon.Some? { assert r[|a| + |b| + |c|] == Conquer(beacon.value); }
  }

  /** The candidate decisions of one reconsideration: each carries a target
      its query accepts. */
  function Candidates(s: Scene, ch: Choices): (r: seq<Decision>)
    ensures forall d :: d in r ==>
      match d
      case Retreat(p) => p in s.retreatSamples && SafeRetreat(s, p)
      case Attack(u) => u in s.world.cyclables && Attackable(s, u)
      case Regroup(u) => u in s.world.units && Regroupable(s, u)
      case Conquer(b) => b in s.world.beacons && Conquerable(s, b)
  {
    Assemble(
      RetreatPosition(s, ch.retreat),
      EnemyUnit(s, ch.enemy),
      FriendlyUnit(s, ch.friend),
      ConquerableBeacon(s, ch.beacon))
  }

  /** Each kind of candidate is offered exactly when some target of that
      kind passes its query's filter, whatever the picks. */
  lemma CandidatesComplete(s: Scene, ch: Choices)
    ensures var r := Candidates(s, ch);
      && ((exists d :: d in r && d.Retreat?) <==>
          exists i :: 0 <= i < |s.retreatSamples| && SafeRetreat(s, s.retreatSamples[i]))
      && ((exists d :: d in r && d.Attack?) <==>
          exists i :: 0 <= i < |s.world.cyclables| && Attackable(s, s.world.cyclables[i]))
      && ((exists d :: d in r && d.Regroup?) <==>
          exists i :: 0 <= i < |s.world.units| && Regroupable(s, s.world.units[i]))
      && ((exists d :: d in r && d.Conquer?) <==>
          exists i :: 0 <= i < |s.world.beacons| && Conquerable(s, s.world.beacons[i]))
  {
    AssemblePresence(
      RetreatPosition(s, ch.retreat),
      EnemyUnit(s, ch.enemy),
      FriendlyUnit(s, ch.friend),
      ConquerableBeacon(s, ch.beacon));
  }

  /** `goodDecisions`: the candidates that are neither done nor bad, judged
      in the scene they were built in. */
  function GoodDecisions(s: Scene, ch: Choices): (r: seq<Decision>)
    ensures forall i :: 0 <= i < |r| ==> r[i] in Candidates(s, ch) && Good(s, r[i])
    ensures forall d :: d in Candidates(s, ch) && Good(s, d) ==> d in r
  {
    Filter(Candidates(s, ch), GoodIn(s))
  }

  /** An attack is bad exactly past a margin of 2: the target's team health
      within one attack radius of the target's current position, against the
      unit's own team health within two attack radii of the unit. Exactly 2
      more is not bad; 3 more is. */
  lemma AttackBadMargin(s: Scene, u: Unit)
    ensures var t := LatestUnit(s.world, u);
      var defence := AreaHealth(s.world.units, s.world.dist, t.pos, t.team, s.radius);
      var own := AreaHealth(s.world.units, s.world.dist, s.me.pos, s.me.team, 2 * s.radius);
      && (defence == own + 2 ==> !Bad(s, Attack(u)))
      && (defence == own + 3 ==> Bad(s, Attack(u)))
  {
  }

  /** A regroup is bad exactly past a margin of 2: enemy health within one
      attack radius of the friend's current position, against the friend's
      team health there. */
  lemma RegroupBadMargin(s: Scene, u: Unit)
    ensures var f := LatestUnit(s.world, u);
      var threat := AreaHealth(s.world.units, s.world.dist, f.pos, s.world.enemyOf(f.team), s.radius);
      var cover := AreaHealth(s.world.units, s.world.dist, f.pos, f.team, s.radius);
      && (threat == cover + 2 ==> !Bad(s, Regroup(u)))
      && (threat == cover + 3 ==> Bad(s, Regroup(u)))
  {
  }

  /** A conquest is bad exactly past a margin of 2: enemy health within one
      attack radius of the beacon, against the unit's team health there. */
  lemma ConquerBadMargin(s: Scene, b: Beacon)
    ensures var c := LatestBeacon(s.world, b);
      var threat := AreaHealth(s.world.units, s.world.dist, c.pos, EnemyTeam(s), s.radius);
      var cover := AreaHealth(s.world.units, s.world.dist, c.pos, s.me.team, s.radius);
      && (threat == cover + 2 ==> !Bad(s, Conquer(b)))
      && (threat == cover + 3 ==> Bad(s, Conquer(b)))
  {
  }

  /** In a well-formed world without negative health, freshly built attack,
      regroup and conquer candidates are never bad: their queries already
      demand at least as much at twice the radius as `bad()` demands at one
      radius with a margin of 2. Only a retreat can be bad at birth, since its
      query looks two radii around the spot and its `bad()` looks four. */
  lemma FreshCandidateNotBad(s: Scene, ch: Choices, d: Decision)
    requires WellFormed(s.world) && NoNegativeHealth(s.world.units)
    requires d in Candidates(s, ch) && !d.Retreat?
    ensures !Bad(s, d)
  {
    var units := s.world.units;
    match d
    case Attack(u) =>
      LatestOfListedUnit(s.world, u);
      AreaHealthWidens(units, s.world.dist, u.pos, u.team, s.radius, 2 * s.radius);
    case Regroup(f) =>
      LatestOfListedUnit(s.world, f);
      AreaHealthWidens(units, s.world.dist, f.pos, s.world.enemyOf(f.team), s.radius, 2 * s.radius);
      AreaHealthPositiveIffLiving(units, s.world.dist, f.pos, f.team, s.radius);
    case Conquer(b) =>
      LatestOfListedBeacon(s.world, b);
      AreaHealthWidens(units, s.world.dist, b.pos, EnemyTeam(s), s.radius, 2 * s.radius);
      AreaHealthPositiveIffLiving(units, s.world.dist, b.pos, s.me.team, s.radius);
  }

  /** In a well-formed world without negative health, a conquer candidate
      always survives filtering: the beacon is not yet the unit's team's, so
      it is not done, and it is not bad. */
  lemma ConquerCandidateSurvives(s: Scene, ch: Choices, b: Beacon)
    requires WellFormed(s.world) && NoNegativeHealth(s.world.units)
    requires ConquerableBeacon(s, ch.beacon) == Some(b)
    ensures Conquer(b) in GoodDecisions(s, ch)
  {
    assert Conquer(b) in Candidates(s, ch);
    LatestOfListedBeacon(s.world, b);
    FreshCandidateNotBad(s, ch, Conquer(b));
  }
}
