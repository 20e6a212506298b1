/** "Health in area": how much health a team has gathered around a point. */
module Health {
  import opened Choice
  import opened Entities

  /** A unit counts toward the health of `team` within `radius` of `p`. */
  predicate InArea(dist: Distance, u: Unit, p: Point, team: TeamId, radius: nat) {
    u.team == team && Closer(dist, u.pos, p, radius)
  }

  /** Reference definition: the sum of `health` over exactly the units that
      count, every other unit contributing nothing. */
  function AreaHealth(units: seq<Unit>, dist: Distance, p: Point, team: TeamId, radius: nat): int {
    if |units| == 0 then 0
    else (if InArea(dist, units[0], p, team, radius) then units[0].health else 0)
         + AreaHealth(units[1..], dist, p, team, radius)
  }

  /** `reduce((health, unit) => health + unit.health, 0)`: a left fold. */
  function TotalHealth(us: seq<Unit>): int {
    if |us| == 0 then 0 else TotalHealth(us[..|us| - 1]) + us[|us| - 1].health
  }

  /** The filter `c => c.team == team`. */
  function OnTeam(team: TeamId): Unit -> bool {
    (u: Unit) => u.team == team
  }

  /** The filter `unit => dist(unit, point) < radius`. */
  function WithinOf(dist: Distance, p: Point, radius: nat): Unit -> bool {
    (u: Unit) => Closer(dist, u.pos, p, radius)
  }

  /** `healthInArea(point, team, radius)` over the world's units: filter by
      team, filter by distance, fold the health. */
  function HealthInArea(units: seq<Unit>, dist: Distance, p: Point, team: TeamId, radius: nat): (r: int)
    ensures r == AreaHealth(units, dist, p, team, radius)
  {
    FilteredTotal(units, dist, p, team, radius);
    TotalHealth(Filter(Filter(units, OnTeam(team)), WithinOf(dist, p, radius)))
  }

  /** The left fold can also be read from the front. */
  lemma {:induction false} TotalHealthCons(u: Unit, rest: seq<Unit>)
    ensures TotalHealth([u] + rest) == u.health + TotalHealth(rest)
    decreases |rest|
  {
    if |rest| == 0 {
      assert [u] + rest == [u];
      assert [u][..0] == [];
    } else {
      var m := |rest| - 1;
      assert ([u] + rest)[..m + 1] == [u] + rest[..m];
      TotalHealthCons(u, rest[..m]);
    }
  }

  lemma {:induction false} FilteredTotal(units: seq<Unit>, dist: Distance, p: Point, team: TeamId, radius: nat)
    ensures TotalHealth(Filter(Filter(units, OnTeam(team)), WithinOf(dist, p, radius)))
            == AreaHealth(units, dist, p, team, radius)
    decreases |units|
  {
    if |units| > 0 {
      var u := units[0];
      var rest := Filter(units[1..], OnTeam(team));
      FilteredTotal(units[1..], dist, p, team, radius);
      if u.team == team {
        assert Filter(units, OnTeam(team)) == [u] + rest;
        assert ([u] + rest)[0] == u && ([u] + rest)[1..] == rest;
        if Closer(dist, u.pos, p, radius) {
          TotalHealthCons(u, Filter(rest, WithinOf(dist, p, radius)));
        }
      }
    }
  }

  /** Health in area is additive over a split of the unit list. */
  lemma {:induction false} AreaHealthAppend(a: seq<Unit>, b: seq<Unit>, dist: Distance, p: Point, team: TeamId, radius: nat)
    ensures AreaHealth(a + b, dist, p, team, radius)
            == AreaHealth(a, dist, p, team, radius) + AreaHealth(b, dist, p, team, radius)
    decreases |a|
  {
    if |a| == 0 {
      assert a + b == b;
    } else {
      assert (a + b)[0] == a[0] && (a + b)[1..] == a[1..] + b;
      AreaHealthAppend(a[1..], b, dist, p, team, radius);
    }
  }

  /** Health in area is 0 when no unit qualifies. */
  lemma {:induction false} AreaHealthNoneQualify(units: seq<Unit>, dist: Distance, p: Point, team: TeamId, radius: nat)
    requires forall i :: 0 <= i < |units| ==> !InArea(dist, units[i], p, team, radius)
    ensures AreaHealth(units, dist, p, team, radius) == 0
    decreases |units|
  {
    if |units| > 0 {
      AreaHealthNoneQualify(units[1..], dist, p, team, radius);
    }
  }

  /** Units of other teams never contribute: inserting one anywhere leaves
      the health in area unchanged. */
  lemma AreaHealthIgnoresOtherTeam(a: seq<Unit>, u: Unit, b: seq<Unit>, dist: Distance, p: Point, team: TeamId, radius: nat)
    requires u.team != team
    ensures AreaHealth(a + [u] + b, dist, p, team, radius) == AreaHealth(a + b, dist, p, team, radius)
  {
    AreaHealthAppend(a + [u], b, dist, p, team, radius);
    AreaHealthAppend(a, [u], dist, p, team, radius);
    AreaHealthAppend(a, b, dist, p, team, radius);
  }

  /** Only the units of `team` matter: dropping every other unit changes
      nothing. */
  lemma {:induction false} AreaHealthOfTeamOnly(units: seq<Unit>, dist: Distance, p: Point, team: TeamId, radius: nat)
    ensures AreaHealth(Filter(units, OnTeam(team)), dist, p, team, radius) == AreaHealth(units, dist, p, team, radius)
    decreases |units|
  {
    if |units| > 0 {
      var rest := Filter(units[1..], OnTeam(team));
      AreaHealthOfTeamOnly(units[1..], dist, p, team, radius);
      if units[0].team == team {
        assert Filter(units, OnTeam(team)) == [units[0]] + rest;
        assert ([units[0]] + rest)[1..] == rest;
      }
    }
  }

  /** No unit carries negative health. */
  predicate NoNegativeHealth(units: seq<Unit>) {
    forall i :: 0 <= i < |units| ==> units[i].health >= 0
  }

  /** Some living unit of `team` stands strictly within `radius` of `p`. */
  predicate LivingIn(units: seq<Unit>, dist: Distance, p: Point, team: TeamId, radius: nat) {
    exists i :: 0 <= i < |units| && InArea(dist, units[i], p, team, radius) && units[i].health > 0
  }

  /** With no negative health around, health in area is positive exactly
      when some living unit of the team stands in the area, and never
      negative; so "at most 0" means "nobody of that team is alive there". */
  lemma {:induction false} AreaHealthPositiveIffLiving(units: seq<Unit>, dist: Distance, p: Point, team: TeamId, radius: nat)
    requires NoNegativeHealth(units)
    ensures AreaHealth(units, dist, p, team, radius) >= 0
    ensures AreaHealth(units, dist, p, team, radius) > 0 <==> LivingIn(units, dist, p, team, radius)
    decreases |units|
  {
    if |units| > 0 {
      var rest := units[1..];
      AreaHealthPositiveIffLiving(rest, dist, p, team, radius);
      if LivingIn(rest, dist, p, team, radius) {
        var i :| 0 <= i < |rest| && InArea(dist, rest[i], p, team, radius) && rest[i].health > 0;
        assert units[i + 1] == rest[i];
      }
      if LivingIn(units, dist, p, team, radius) {
        var i :| 0 <= i < |units| && InArea(dist, units[i], p, team, radius) && units[i].health > 0;
        if i > 0 {
          assert rest[i - 1] == units[i];
        }
      }
    }
  }

  /** `AreaHealthPositiveIffLiving` for any unit list, as an implication. */
  lemma LivingInIff(units: seq<Unit>, dist: Distance, p: Point, team: TeamId, radius: nat)
    ensures NoNegativeHealth(units) ==>
      && AreaHealth(units, dist, p, team, radius) >= 0
      && (AreaHealth(units, dist, p, team, radius) > 0 <==> LivingIn(units, dist, p, team, radius))
  {
    if NoNegativeHealth(units) {
      AreaHealthPositiveIffLiving(units, dist, p, team, radius);
    }
  }

  /** With no negative health around, widening the radius never lowers the
      health in area. */
  lemma {:induction false} AreaHealthWidens(units: seq<Unit>, dist: Distance, p: Point, team: TeamId, r1: nat, r2: nat)
    requires NoNegativeHealth(units) && r1 <= r2
    ensures AreaHealth(units, dist, p, team, r1) <= AreaHealth(units, dist, p, team, r2)
    decreases |units|
  {
    if |units| > 0 {
      AreaHealthWidens(units[1..], dist, p, team, r1, r2);
    }
  }

  /** With no negative health around, a unit standing in the area adds at
      least its own health. */
  lemma AreaHealthCountsMember(units: seq<Unit>, dist: Distance, i: nat, p: Point, team: TeamId, radius: nat)
    requires NoNegativeHealth(units) && i < |units| && InArea(dist, units[i], p, team, radius)
    ensures AreaHealth(units, dist, p, team, radius) >= units[i].health
  {
    assert units == units[..i] + [units[i]] + units[i + 1..];
    AreaHealthAppend(units[..i] + [units[i]], units[i + 1..], dist, p, team, radius);
    AreaHealthAppend(units[..i], [units[i]], dist, p, team, radius);
    AreaHealthPositiveIffLiving(units[..i], dist, p, team, radius);
    AreaHealthPositiveIffLiving(units[i + 1..], dist, p, team, radius);
  }
}
