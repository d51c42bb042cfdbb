/** The light sensor: it sums, over the light bulbs it can see from its point on the robot,
    each bulb's brightness times a multiplier over the squared distance. A bulb is seen when
    the ray from the sensor to the bulb hits no wall and no other robot. */
module LightSensors {
  import opened Wrappers
  import opened Utils
  import opened Numeric
  import opened Geometry
  import opened RayCast
  import opened Kinematics

  /** A light source: position, height, brightness and colour (the colour is not used). */
  datatype Bulb = Bulb(x: real, y: real, z: real, brightness: real, color: Color)

  /** The scale of a bulb's contribution. */
  const Multiplier: real := 1000.0

  /** The heading of the ray from p towards the bulb. */
  function BulbHeading(p: Point, b: Bulb, m: Math): real {
    Atan2(b.x - p.x, b.y - p.y, m)
  }

  /** The distance from p to the bulb. */
  function BulbDistance(p: Point, b: Bulb, m: Math): real {
    Distance(b.x, b.y, p.x, p.y, m)
  }

  /** What stands between p and the bulb: the hits of a ray as long as the distance. */
  function Blockers(p: Point, b: Bulb, ss: seq<Surface>, me: object, m: Math): seq<Hit> {
    Cast(ss, me, p.x, p.y, BulbHeading(p, b, m), BulbDistance(p, b, m), m)
  }

  /** What the sensor learns about one bulb: its brightness, its distance and whether
      something stands in between. */
  datatype Sight = Sight(brightness: real, dist: real, blocked: bool)

  function SightOf(p: Point, b: Bulb, ss: seq<Surface>, me: object, m: Math): Sight {
    Sight(b.brightness, BulbDistance(p, b, m), Blockers(p, b, ss, me, m) != [])
  }

  /** The sights of the given bulbs, in order. */
  function Sights(p: Point, bulbs: seq<Bulb>, ss: seq<Surface>, me: object, m: Math): (r: seq<Sight>)
    ensures |r| == |bulbs|
  {
    seq(|bulbs|, k requires 0 <= k < |bulbs| => SightOf(p, bulbs[k], ss, me, m))
  }

  /** The running sum of `update` and whether it got to the end: a visible bulb at distance
      zero divides by zero and stops the sum where it was. */
  datatype Glow = Glow(value: real, ok: bool)

  /** A visible bulb's share: brightness times the multiplier over the squared distance. */
  function Share(s: Sight): real
    requires Square(s.dist) != 0.0
  {
    s.brightness * Multiplier / Square(s.dist)
  }

  /** One bulb's effect on the running sum. */
  function Absorb(before: Glow, s: Sight): Glow {
    if !before.ok || s.blocked then before
    else if Square(s.dist) == 0.0 then Glow(before.value, false)
    else Glow(before.value + Share(s), true)
  }

  /** The sum over the given sights, in order. */
  function Total(sights: seq<Sight>): Glow {
    if sights == [] then Glow(0.0, true)
    else Absorb(Total(sights[..|sights| - 1]), sights[|sights| - 1])
  }

  lemma TotalStep(sights: seq<Sight>, s: Sight)
    ensures Total(sights + [s]) == Absorb(Total(sights), s)
  {
    var all := sights + [s];
    assert all[..|all| - 1] == sights;
  }

  /** The light seen from p over the given bulbs. */
  function Light(p: Point, bulbs: seq<Bulb>, ss: seq<Surface>, me: object, m: Math): Glow {
    Total(Sights(p, bulbs, ss, me, m))
  }

  /** A hidden bulb adds nothing. */
  lemma HiddenBulbAddsNothing(sights: seq<Sight>, s: Sight)
    requires s.blocked
    ensures Total(sights + [s]) == Total(sights)
  {
    assert (sights + [s])[..|sights|] == sights;
  }

  /** A visible bulb adds its brightness times the multiplier over the squared distance. */
  lemma VisibleBulbAdds(sights: seq<Sight>, s: Sight)
    requires Total(sights).ok && !s.blocked && Square(s.dist) != 0.0
    ensures Total(sights + [s]) ==
            Glow(Total(sights).value + Share(s), true)
  {
    var all := sights + [s];
    assert all[..|all| - 1] == sights;
  }

  /** A bulb right at the sensor cannot be hidden (its ray has length zero), so it divides by
      zero. */
  lemma BulbAtSensorFails(p: Point, bulbs: seq<Bulb>, b: Bulb, ss: seq<Surface>, me: object, m: Math)
    requires BulbDistance(p, b, m) == 0.0
    ensures !SightOf(p, b, ss, me, m).blocked
    ensures !Total(Sights(p, bulbs, ss, me, m) + [SightOf(p, b, ss, me, m)]).ok
  {
    var sights := Sights(p, bulbs, ss, me, m);
    assert (sights + [SightOf(p, b, ss, me, m)])[..|sights|] == sights;
    ZeroRangeHitsNothing(ss, me, p.x, p.y, BulbHeading(p, b, m), m);
  }

  /** Once the sum has failed, later bulbs change nothing. */
  lemma {:induction false} FailureSticks(sights: seq<Sight>, more: seq<Sight>)
    requires !Total(sights).ok
    ensures Total(sights + more) == Total(sights)
    decreases |more|
  {
    if more == [] {
      assert sights + more == sights;
    } else {
      var init := more[..|more| - 1];
      FailureSticks(sights, init);
      var all := sights + more;
      assert all[..|all| - 1] == sights + init;
    }
  }

  /** The sights gathered so far are those of the first bulbs, in order. */
  ghost predicate Gathered(p: Point, bulbs: seq<Bulb>, seen: seq<Sight>, ss: seq<Surface>, me: object, m: Math) {
    && |seen| <= |bulbs|
    && forall k :: 0 <= k < |seen| ==> seen[k] == SightOf(p, bulbs[k], ss, me, m)
  }

  lemma GatherOne(p: Point, bulbs: seq<Bulb>, seen: seq<Sight>, sight: Sight, ss: seq<Surface>, me: object, m: Math)
    requires Gathered(p, bulbs, seen, ss, me, m) && |seen| < |bulbs|
    requires sight == SightOf(p, bulbs[|seen|], ss, me, m)
    ensures Gathered(p, bulbs, seen + [sight], ss, me, m)
  {
  }

  /** Sights gathered one by one, in order, are the sights of the bulbs. */
  lemma {:induction false} GatheredSights(p: Point, bulbs: seq<Bulb>, seen: seq<Sight>, ss: seq<Surface>, me: object, m: Math)
    requires |seen| == |bulbs| && Gathered(p, bulbs, seen, ss, me, m)
    ensures seen == Sights(p, bulbs, ss, me, m)
  {}

  /** A sum that failed after the first bulbs stays as it was over all of them. */
  lemma {:induction false} FailureIsFinal(p: Point, bulbs: seq<Bulb>, seen: seq<Sight>, ss: seq<Surface>, me: object, m: Math)
    requires Gathered(p, bulbs, seen, ss, me, m)
    requires !Total(seen).ok
    ensures Total(Sights(p, bulbs, ss, me, m)) == Total(seen)
  {
    var all := Sights(p, bulbs, ss, me, m);
    var n := |seen|;
    assert all[..n] == seen;
    FailureSticks(seen, all[n..]);
    assert seen + all[n..] == all;
  }

  /** With bulbs of non-negative brightness the light is never negative. */
  lemma {:induction false} LightNonNegative(sights: seq<Sight>)
    requires forall k :: 0 <= k < |sights| ==> sights[k].brightness >= 0.0
    ensures Total(sights).value >= 0.0
  {
    if sights != [] {
      var init := sights[..|sights| - 1];
      LightNonNegative(init);
      var s := sights[|sights| - 1];
      if Square(s.dist) != 0.0 {
        SquarePositive(s.dist);
        assert s.brightness * Multiplier >= 0.0;
      }
    }
  }

  /** Of two visible bulbs of the same positive brightness, the nearer one gives more light. */
  lemma NearerIsBrighter(s1: Sight, s2: Sight)
    requires s1.brightness == s2.brightness > 0.0
    requires !s1.blocked && !s2.blocked
    requires 0.0 < s1.dist < s2.dist
    ensures Total([s1]).value > Total([s2]).value
  {
    var d1, d2 := s1.dist, s2.dist;
    assert [s1][..0] == [] && [s2][..0] == [];
    SquareMonotone(d1, d2);
    var e := s1.brightness * Multiplier;
    assert e > 0.0;
    SquarePositive(d1);
    QuotientShrinks(e, Square(d1), Square(d2));
  }

  lemma SquareMonotone(a: real, b: real)
    requires 0.0 < a < b
    ensures Square(a) < Square(b)
  {
    assert a * a < a * b;
    assert a * b < b * b;
  }

  lemma QuotientShrinks(e: real, a: real, b: real)
    requires e > 0.0 && 0.0 < a < b
    ensures e / a > e / b
  {
    var qa, qb := e / a, e / b;
    assert qa * a == e && qb * b == e;
    assert qb * a < qb * b;
  }

  /** One bulb of `update`: the ray from the sensor to the bulb. */
  method Look(p: Point, b: Bulb, ss: seq<Surface>, me: object, m: Math) returns (sight: Sight)
    ensures sight == SightOf(p, b, ss, me, m)
  {
    var angle := Atan2(b.x - p.x, b.y - p.y, m);
    var dist := Distance(b.x, b.y, p.x, p.y, m);
    assert angle == BulbHeading(p, b, m) && dist == BulbDistance(p, b, m);
    var hits := RayCast.CastRay(ss, me, p.x, p.y, angle, dist, m);
    sight := Sight(b.brightness, dist, hits != []);
  }


  /** One pass of the loop in `update`: look at the bulb, and when nothing blocks it add its
      share to the running sum (a bulb at distance zero stops the sum). */
  method Shine(p: Point, b: Bulb, before: Glow, ss: seq<Surface>, me: object, m: Math)
    returns (sight: Sight, after: Glow)
    requires before.ok
    ensures sight == SightOf(p, b, ss, me, m) && after == Absorb(before, sight)
  {
    sight := Look(p, b, ss, me, m);
    after := before;
    if !sight.blocked {
      // nothing blocking: the light is seen
      if Square(sight.dist) == 0.0 {
        return sight, Glow(before.value, false);
      }
      after := Glow(before.value + Share(sight), true);
    }
  }

  /** The configuration `from_json` reads: only the position. */
  datatype LightConfig = LightConfig(position: Option<Point>)

  /** What `to_json` returns: the class name and the position. */
  datatype LightJson = LightJson(className: string, position: Point)

  class LightSensor {
    var robot: object?
    const typeName: string
    var value: real
    var position: Point
    var distFromCenter: real
    var dirFromCenter: real

    /** The cached mounting distance and angle belong to the position. */
    predicate Located(m: Math)
      reads this
    {
      && distFromCenter == Distance(0.0, 0.0, position.x, position.y, m)
      && dirFromCenter == Atan2(-position.x, position.y, m)
    }

    /** A new sensor: `initialize`, then the configuration. */
    constructor (config: LightConfig, m: Math)
      ensures robot == null && typeName == "light" && value == 0.0
      ensures position == (if config.position.Some? then config.position.value else Point(0.0, 0.0))
      ensures Located(m)
    {
      robot := null;
      typeName := "light";
      value := 0.0;
      position := Point(0.0, 0.0);
      distFromCenter := Distance(0.0, 0.0, 0.0, 0.0, m);
      dirFromCenter := Atan2(-0.0, 0.0, m);
      new;
      FromJson(config, m);
    }

    /** `initialize`: back to reading zero at the robot's centre. */
    method Initialize(m: Math)
      modifies this
      ensures value == 0.0 && position == Point(0.0, 0.0) && Located(m)
      ensures robot == old(robot)
    {
      value := 0.0;
      position := Point(0.0, 0.0);
      distFromCenter := Distance(0.0, 0.0, position.x, position.y, m);
      dirFromCenter := Atan2(-position.x, position.y, m);
    }

    /** `from_json`: a given position replaces the old one and the cached angle and distance
        follow it; without one nothing changes. */
    method FromJson(config: LightConfig, m: Math)
      modifies this
      ensures config.position.Some? ==> position == config.position.value && Located(m)
      ensures config.position.None? ==>
        position == old(position) && distFromCenter == old(distFromCenter) && dirFromCenter == old(dirFromCenter)
      ensures old(Located(m)) ==> Located(m)
      ensures robot == old(robot) && value == old(value)
    {
      if config.position.Some? {
        position := config.position.value;
        distFromCenter := Distance(0.0, 0.0, position.x, position.y, m);
        dirFromCenter := Atan2(-position.x, position.y, m);
      }
    }

    /** `to_json`: the class name and the position. */
    function ToJson(): (j: LightJson)
      reads this
      ensures j.className == "LightSensor" && j.position == position
    {
      LightJson("LightSensor", position)
    }

    /** `get_reading`. */
    function GetReading(): real
      reads this
    {
      value
    }

    /** Where the sensor is in the world when the robot has the given pose. */
    function Where(pose: Pose, m: Math): Point
      reads this
    {
      MountPoint(pose, distFromCenter, dirFromCenter, m)
    }

    /** `update`: the reading drops to zero, then each bulb the sensor can see adds its share.
        `bulbs` is the world's bulb list, absent when the world has none (an attribute error);
        a visible bulb at distance zero divides by zero. Either failure is reported as false,
        with the reading as far as it got. */
    method Update(bulbs: Option<seq<Bulb>>, pose: Pose, ss: seq<Surface>, me: object, m: Math) returns (ok: bool)
      modifies this`value
      ensures bulbs.None? ==> !ok && value == 0.0
      ensures bulbs.Some? ==> Glow(value, ok) == Light(Where(pose, m), bulbs.value, ss, me, m)
    {
      value := 0.0;
      var p := MountPoint(pose, distFromCenter, dirFromCenter, m);
      if bulbs.None? {
        return false;
      }
      var bs := bulbs.value;
      ghost var seen: seq<Sight> := [];
      var sum := Glow(0.0, true);
      var i := 0;
      while i < |bs|
        invariant 0 <= i <= |bs| && |seen| == i && Gathered(p, bs, seen, ss, me, m)
        invariant sum == Total(seen) && sum.ok
      {
        var sight;
        sight, sum := Shine(p, bs[i], sum, ss, me, m);
        TotalStep(seen, sight);
        GatherOne(p, bs, seen, sight, ss, me, m);
        seen := seen + [sight];
        if !sum.ok {
          FailureIsFinal(p, bs, seen, ss, me, m);
          value := sum.value;
          return false;
        }
        i := i + 1;
      }
      GatheredSights(p, bs, seen, ss, me, m);
      value := sum.value;
      ok := true;
    }
  }
}
