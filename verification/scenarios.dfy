/** Concrete situations: an attack ends when its target has lost its health,
    and a beacon held by the enemy with no defender around it is conquered. */
module Scenarios {
  import opened Choice
  import opened Entities
  import opened Health
  import opened Queries
  import opened Decisions
  import opened Controller

  /** Two teams, 0 and 1, each the other's enemy. */
  function Rival(t: TeamId): TeamId {
    if t == 0 then 1 else 0
  }

  function OpenField(p: Point): bool {
    false
  }

  /** Chessboard distance: the larger of the two coordinate differences. */
  function Chebyshev(a: Point, b: Point): nat {
    var dx := if a.x < b.x then b.x - a.x else a.x - b.x;
    var dy := if a.y < b.y then b.y - a.y else a.y - b.y;
    if dx < dy then dy else dx
  }

  /** A unit of team 0 with health 10 at the origin. */
  function Me(): Unit {
    Unit(0, Point(0, 0), 0, 10)
  }

  /** An enemy with health 5 at distance 3 from it. */
  function Foe(): Unit {
    Unit(1, Point(3, 0), 1, 5)
  }

  /** The enemy once it has lost its health. */
  function Fallen(): Unit {
    Unit(1, Point(3, 0), 1, 0)
  }

  /** Any unit object the scenarios do not name: long gone. */
  function Gone(id: nat): Unit {
    Unit(id, Point(0, 0), 0, 0)
  }

  /** Any beacon object the scenarios do not name: neutral. */
  function Unclaimed(id: nat): Beacon {
    Beacon(id, Point(0, 0), None)
  }

  /** The current unit objects while the enemy is alive. */
  function BeforeKillUnits(id: nat): Unit {
    if id == 0 then Me() else if id == 1 then Foe() else Gone(id)
  }

  /** The current unit objects once the enemy has lost its health. */
  function AfterKillUnits(id: nat): Unit {
    if id == 0 then Me() else if id == 1 then Fallen() else Gone(id)
  }

  /** The unit facing that enemy, with no friend, no beacon and no retreat
      sample. */
  function Duel(): Scene {
    Scene(World([Me(), Foe()], [Foe()], [], OpenField, Rival, Chebyshev, BeforeKillUnits, Unclaimed),
          Me(), 10, None, [])
  }

  /** The health each team has around the two units of the duel. */
  lemma DuelHealth()
    ensures AreaHealth(Duel().world.units, Chebyshev, Me().pos, 0, 20) == 10
    ensures AreaHealth(Duel().world.units, Chebyshev, Foe().pos, 1, 20) == 5
    ensures AreaHealth(Duel().world.units, Chebyshev, Foe().pos, 1, 10) == 5
  {
    assert Duel().world.units[1..] == [Foe()];
  }

  /** The only candidate of the duel is the attack on the enemy. */
  lemma DuelCandidates(ch: Choices)
    ensures Candidates(Duel(), ch) == [Attack(Foe())]
  {
    var s := Duel();
    DuelHealth();
    assert Attackable(s, Foe());
    assert Filter(s.world.cyclables, Attackables(s)) == [Foe()];
    assert !Regroupable(s, s.world.units[0]);
    assert !Regroupable(s, s.world.units[1]);
    assert FriendlyUnit(s, ch.friend) == None;
  }

  /** The attack on the enemy is neither done nor bad. */
  lemma DuelAttackGood()
    ensures Good(Duel(), Attack(Foe()))
  {
    DuelHealth();
    assert LatestUnit(Duel().world, Foe()) == Foe();
  }

  /** Facing a weaker enemy with no friend, no beacon and no retreat sample,
      the unit commits to attacking it and chases it. */
  lemma DuelStartsAttack(ch: Choices)
    ensures Attach(New(), Duel(), ch).current == Some(Attack(Foe()))
    ensures Attach(New(), Duel(), ch).sub == Some(Chase(1))
  {
    DuelCandidates(ch);
    DuelAttackGood();
    assert GoodDecisions(Duel(), ch) == [Attack(Foe())];
  }

  /** The same place once the enemy has lost its health and the world no
      longer lists it. */
  function AfterKill(): Scene {
    Scene(World([Me()], [], [], OpenField, Rival, Chebyshev, AfterKillUnits, Unclaimed),
          Me(), 10, None, [])
  }

  /** Once the enemy has lost its health the attack is done, even though the
      world no longer lists the enemy. */
  lemma DeadEnemyEndsAttack()
    ensures Done(AfterKill(), Attack(Foe()))
    ensures Foe() !in AfterKill().world.units && Fallen() !in AfterKill().world.units
  {
  }

  /** A friend of the unit with health 5 at `(x, 0)`. */
  function FriendAt(x: int): Unit {
    Unit(2, Point(x, 0), 0, 5)
  }

  /** The unit and that friend, alone. */
  function Rally(x: int): Scene {
    Scene(World([Me(), FriendAt(x)], [], [], OpenField, Rival, Chebyshev,
                (id: nat) => if id == 2 then FriendAt(x) else LoneUnits(id), Unclaimed),
          Me(), 10, None, [])
  }

  /** A regroup is done only once the friend is strictly within one attack
      radius: a friend at exactly that distance is not yet reached, one step
      closer is. */
  lemma RegroupDoneStrictlyWithin()
    ensures !Done(Rally(10), Regroup(FriendAt(10)))
    ensures Done(Rally(9), Regroup(FriendAt(9)))
  {
  }

  /** A beacon at (4, 4) owned by team 1. */
  function EnemyBeacon(): Beacon {
    Beacon(7, Point(4, 4), Some(1))
  }

  /** The beacon once it has turned to team 0. */
  function TakenBeacon(): Beacon {
    Beacon(7, Point(4, 4), Some(0))
  }

  /** The current unit objects around the beacon: the unit alone. */
  function LoneUnits(id: nat): Unit {
    if id == 0 then Me() else Gone(id)
  }

  /** The current beacon objects while the enemy holds the beacon. */
  function HeldBeacons(id: nat): Beacon {
    if id == 7 then EnemyBeacon() else Unclaimed(id)
  }

  /** The current beacon objects once the beacon has turned. */
  function TakenBeacons(id: nat): Beacon {
    if id == 7 then TakenBeacon() else Unclaimed(id)
  }

  /** The unit alone beside that beacon, with no retreat sample. */
  function Outpost(): Scene {
    Scene(World([Me()], [], [EnemyBeacon()], OpenField, Rival, Chebyshev, LoneUnits, HeldBeacons),
          Me(), 10, None, [])
  }

  /** The same place once the beacon has turned to team 0. */
  function Taken(): Scene {
    Scene(World([Me()], [], [TakenBeacon()], OpenField, Rival, Chebyshev, LoneUnits, TakenBeacons),
          Me(), 10, None, [])
  }

  /** With no retreat sample, a beacon held by the enemy with no enemy
      around it is conquered; the unit is sent to reach it. */
  lemma OutpostIsConquered(ch: Choices)
    ensures Attach(New(), Outpost(), ch).current == Some(Conquer(EnemyBeacon()))
    ensures Attach(New(), Outpost(), ch).sub == Some(Reach(Point(4, 4)))
  {
    var s := Outpost();
    var b := EnemyBeacon();
    assert AreaHealth(s.world.units, Chebyshev, b.pos, 1, 20) == 0;
    assert Conquerable(s, b);
    assert Filter(s.world.beacons, Conquerables(s)) == [b];
    assert FriendlyUnit(s, ch.friend) == None by {
      assert !Regroupable(s, s.world.units[0]);
    }
    assert Candidates(s, ch) == [Conquer(b)];
    assert LatestBeacon(s.world, b) == b;
    assert AreaHealth(s.world.units, Chebyshev, b.pos, 1, 10) == 0;
    assert Good(s, Conquer(b));
    assert GoodDecisions(s, ch) == [Conquer(b)];
  }

  /** Once the beacon has turned to the unit's team the conquest is done. */
  lemma TurnedBeaconEndsConquest()
    ensures Done(Taken(), Conquer(EnemyBeacon()))
  {
  }
}
