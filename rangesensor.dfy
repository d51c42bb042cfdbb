/** The range sensor: a cone of up to three rays from a point on the robot; it reports the
    distance to the nearest hit (`distance`, in cm) and that distance as a fraction of its
    range (`reading`). */
module RangeSensors {
  import opened Wrappers
  import opened Utils
  import opened Numeric
  import opened Geometry
  import opened RayCast
  import opened Kinematics

  // ----- arange -----

  /** What `arange(start, stop, step)` promises: start, start + step, ... each at most stop,
      and the next value would pass stop. */
  ghost predicate IsArange(start: real, stop: real, step: real, out: seq<real>) {
    && (forall k :: 0 <= k < |out| ==> out[k] == start + k as real * step && out[k] <= stop)
    && start + |out| as real * step > stop
  }

  /** The first n values of the progression. */
  function Progression(start: real, step: real, n: nat): (r: seq<real>)
    ensures |r| == n && forall k :: 0 <= k < n ==> r[k] == start + k as real * step
  {
    seq(n, k => start + k as real * step)
  }

  /** One more value extends the progression by the next term. */
  lemma ProgressionStep(start: real, step: real, n: nat)
    ensures Progression(start, step, n + 1) == Progression(start, step, n) + [start + n as real * step]
  {
    var a := Progression(start, step, n + 1);
    var b := Progression(start, step, n) + [start + n as real * step];
    assert forall k :: 0 <= k < n + 1 ==> a[k] == b[k];
  }

  /** The number of values `arange` yields before it stops. */
  function ArangeCount(start: real, stop: real, step: real): nat
    requires step > 0.0 || start > stop
  {
    if start > stop then 0 else ((stop - start) / step).Floor + 1
  }

  lemma StepsWithin(start: real, stop: real, step: real, k: nat)
    requires step > 0.0 && start + k as real * step <= stop
    ensures k < ArangeCount(start, stop, step)
  {
    var q := (stop - start) / step;
    assert q * step == stop - start;
    assert (q - k as real) * step >= 0.0;
    assert k as real <= q;
  }

  lemma StepsBeyond(start: real, stop: real, step: real, k: nat)
    requires step > 0.0 && start + k as real * step > stop
    ensures k >= ArangeCount(start, stop, step)
  {
    if start <= stop {
      var q := (stop - start) / step;
      assert q * step == stop - start;
      assert (k as real - q) * step > 0.0;
      assert k as real > q;
    }
  }

  /** The generator `arange`, collected into a list. Its loop only ends when the step is
      positive or no value is yielded at all. */
  method Arange(start: real, stop: real, step: real) returns (out: seq<real>)
    requires step > 0.0 || start > stop
    ensures out == Progression(start, step, ArangeCount(start, stop, step))
  {
    out := [];
    var current := start;
    while current <= stop
      invariant current == start + |out| as real * step
      invariant out == Progression(start, step, |out|)
      invariant |out| <= ArangeCount(start, stop, step)
      decreases ArangeCount(start, stop, step) - |out|
    {
      var n := |out|;
      StepsWithin(start, stop, step, n);
      ProgressionStep(start, step, n);
      out := out + [current];
      current := current + step;
      assert current == start + (n + 1) as real * step;
    }
    if step > 0.0 {
      StepsBeyond(start, stop, step, |out|);
    }
  }

  /** The values of `arange` are exactly what the generator promises. */
  lemma ArangeMeaning(start: real, stop: real, step: real)
    requires step > 0.0 || start > stop
    ensures IsArange(start, stop, step, Progression(start, step, ArangeCount(start, stop, step)))
  {
    var n := ArangeCount(start, stop, step);
    var out := Progression(start, step, n);
    if n > 0 {
      var q := (stop - start) / step;
      assert q * step == stop - start;
      forall k | 0 <= k < n ensures out[k] <= stop {
        assert k as real <= q;
        assert k as real * step <= q * step;
      }
      assert n as real > q;
      assert n as real * step > q * step;
    }
  }

  /** `arange(1, 5, 1)` yields 1, 2, 3, 4, 5. */
  lemma ArangeOneToFive()
    ensures Progression(1.0, 1.0, ArangeCount(1.0, 5.0, 1.0)) == [1.0, 2.0, 3.0, 4.0, 5.0]
  {
    assert ArangeCount(1.0, 5.0, 1.0) == 5;
  }

  /** The cone's increments `arange(-w/2, w/2, w/2)`: exactly -w/2, 0 and w/2 for a positive
      width, nothing for a negative one. */
  lemma ConeIncrements(w: real)
    requires w != 0.0
    ensures w > 0.0 ==> Progression(-w / 2.0, w / 2.0, ArangeCount(-w / 2.0, w / 2.0, w / 2.0)) == [-w / 2.0, 0.0, w / 2.0]
    ensures w < 0.0 ==> Progression(-w / 2.0, w / 2.0, ArangeCount(-w / 2.0, w / 2.0, w / 2.0)) == []
    ensures Progression(-w / 2.0, w / 2.0, ArangeCount(-w / 2.0, w / 2.0, w / 2.0)) == ConeOffsets(w)
  {
    if w > 0.0 {
      assert (w / 2.0 - -w / 2.0) / (w / 2.0) == 2.0;
      assert ArangeCount(-w / 2.0, w / 2.0, w / 2.0) == 3;
      var r := Progression(-w / 2.0, w / 2.0, 3);
      assert r[1] == -w / 2.0 + 1.0 * (w / 2.0) == 0.0;
      assert r[2] == -w / 2.0 + 2.0 * (w / 2.0) == w / 2.0;
    }
  }

  /** The angle offsets the sensor casts at: the arange cone for a non-zero width, a single
      straight ray for width zero. */
  function ConeOffsets(w: real): (r: seq<real>)
    ensures w > 0.0 ==> |r| == 3
    ensures w < 0.0 ==> r == []
    ensures w == 0.0 ==> r == [0.0]
  {
    if w > 0.0 then [-w / 2.0, 0.0, w / 2.0] else if w < 0.0 then [] else [0.0]
  }

  // ----- settings and their JSON form -----

  /** The settings `from_json` reads: position on the robot, direction and width in radians, range. */
  datatype RangeSettings = RangeSettings(position: Point, direction: real, max: real, width: real)

  /** A configuration dictionary: each key may be absent; direction and width are in degrees. */
  datatype RangeConfig = RangeConfig(position: Option<Point>, direction: Option<real>,
                                     max: Option<real>, width: Option<real>)

  /** What `to_json` returns: the device type and every key of the configuration. */
  datatype RangeJson = RangeJson(typeName: string, config: RangeConfig)

  /** The settings of a new sensor before its configuration is applied. */
  const DefaultSettings: RangeSettings := RangeSettings(Point(10.0, 10.0), 0.0, 100.0, 1.0)

  /** The effect of `from_json` on the settings: present keys replace, degrees become radians. */
  function ApplyConfig(s: RangeSettings, c: RangeConfig): (r: RangeSettings)
    ensures c.position.None? ==> r.position == s.position
    ensures c.position.Some? ==> r.position == c.position.value
    ensures c.direction.None? ==> r.direction == s.direction
    ensures c.direction.Some? ==> r.direction == DegToRad(c.direction.value)
    ensures c.max.None? ==> r.max == s.max
    ensures c.max.Some? ==> r.max == c.max.value
    ensures c.width.None? ==> r.width == s.width
    ensures c.width.Some? ==> r.width == DegToRad(c.width.value)
  {
    RangeSettings(
      if c.position.Some? then c.position.value else s.position,
      if c.direction.Some? then DegToRad(c.direction.value) else s.direction,
      if c.max.Some? then c.max.value else s.max,
      if c.width.Some? then DegToRad(c.width.value) else s.width)
  }

  /** The configuration `to_json` writes for some settings: every key, angles in degrees. */
  function ToConfig(s: RangeSettings): RangeConfig {
    RangeConfig(Some(s.position), Some(RadToDeg(s.direction)), Some(s.max), Some(RadToDeg(s.width)))
  }

  /** Loading what `to_json` wrote restores the settings, whatever they were before. */
  lemma JsonRoundTrip(before: RangeSettings, s: RangeSettings)
    ensures ApplyConfig(before, ToConfig(s)) == s
  {
    DegreesRoundTrip(s.direction);
    DegreesRoundTrip(s.width);
  }

  // ----- the reading -----

  /** The point of the sensor in the world: at distance |position| from the robot's centre,
      turned by the robot's heading, the position's own angle and the graphics offset. */
  function SensorPoint(position: Point, pose: Pose, m: Math): Point {
    MountPoint(pose, Distance(0.0, 0.0, position.x, position.y, m), Atan2(-position.x, position.y, m), m)
  }

  /** The world heading of the ray at offset `incr` in the cone. */
  function RayHeading(pose: Pose, direction: real, incr: real, m: Math): real {
    -pose.direction + Pi / 2.0 + incr - direction
  }

  /** One ray's effect on the distance: the last (nearest) hit wins if it is closer. */
  function Closer(d: real, hits: seq<Hit>): (r: real)
    ensures r <= d
    ensures hits == [] ==> r == d
    ensures hits != [] ==> r <= hits[|hits| - 1].distance
    ensures r == d || (hits != [] && r == hits[|hits| - 1].distance)
  {
    if hits != [] && hits[|hits| - 1].distance < d then hits[|hits| - 1].distance else d
  }

  /** The hits of the ray at offset `incr`. */
  function RayHits(s: RangeSettings, pose: Pose, ss: seq<Surface>, me: object, incr: real, m: Math): seq<Hit> {
    var p := SensorPoint(s.position, pose, m);
    Cast(ss, me, p.x, p.y, RayHeading(pose, s.direction, incr, m), s.max, m)
  }

  /** The hit lists of the rays at the given offsets, in cast order. */
  function RayLists(s: RangeSettings, pose: Pose, ss: seq<Surface>, me: object, incrs: seq<real>, m: Math)
    : (r: seq<seq<Hit>>)
    ensures |r| == |incrs|
  {
    seq(|incrs|, k requires 0 <= k < |incrs| => RayHits(s, pose, ss, me, incrs[k], m))
  }

  /** The distance after the rays with the given hit lists, starting from d. */
  function Nearest(d: real, lists: seq<seq<Hit>>): real {
    if lists == [] then d else Closer(Nearest(d, lists[..|lists| - 1]), lists[|lists| - 1])
  }

  /** The distance the sensor reports for settings s at the given pose. */
  function Sensed(s: RangeSettings, pose: Pose, ss: seq<Surface>, me: object, m: Math): real {
    Nearest(s.max, RayLists(s, pose, ss, me, ConeOffsets(s.width), m))
  }

  function Last(hits: seq<Hit>): Hit
    requires hits != []
  {
    hits[|hits| - 1]
  }

  /** The reported distance is no larger than the starting range nor than the nearest hit of
      any ray. */
  lemma {:induction false} NearestIsLowerBound(d: real, lists: seq<seq<Hit>>)
    ensures Nearest(d, lists) <= d
    ensures forall k :: 0 <= k < |lists| && lists[k] != [] ==> Nearest(d, lists) <= Last(lists[k]).distance
  {
    if lists != [] {
      var init := lists[..|lists| - 1];
      NearestIsLowerBound(d, init);
      forall k | 0 <= k < |lists| && lists[k] != []
        ensures Nearest(d, lists) <= Last(lists[k]).distance
      {
        if k < |init| {
          assert lists[k] == init[k];
        }
      }
    }
  }

  /** ... and it is one of those values: the range itself or some ray's nearest hit. */
  lemma {:induction false} NearestIsAttained(d: real, lists: seq<seq<Hit>>)
    ensures || Nearest(d, lists) == d
            || exists k :: 0 <= k < |lists| && lists[k] != [] && Nearest(d, lists) == Last(lists[k]).distance
  {
    if lists != [] {
      var init := lists[..|lists| - 1];
      NearestIsAttained(d, init);
      var prev := Nearest(d, init);
      var r := Nearest(d, lists);
      if r != d {
        if r == prev {
          var k :| 0 <= k < |init| && init[k] != [] && prev == Last(init[k]).distance;
          assert lists[k] == init[k];
        } else {
          assert r == Last(lists[|lists| - 1]).distance;
        }
      }
    }
  }

  /** When no ray hits anything the distance stays where it started. */
  lemma {:induction false} NoHitsKeepsDistance(d: real, lists: seq<seq<Hit>>)
    requires forall k :: 0 <= k < |lists| ==> lists[k] == []
    ensures Nearest(d, lists) == d
  {
    if lists != [] {
      NoHitsKeepsDistance(d, lists[..|lists| - 1]);
    }
  }

  // ----- the get/set pair on values -----

  /** The reading and the distance together. */
  datatype Sense = Sense(reading: real, distance: real)

  /** `setDistance(d)`: distance d, reading d / max. */
  function AfterSetDistance(d: real, max: real): (r: Sense)
    requires max != 0.0
    ensures r.distance == d && r.reading * max == d
  {
    Sense(d / max, d)
  }

  /** `setReading(x)`: reading x, distance x * max. */
  function AfterSetReading(x: real, max: real): (r: Sense)
    ensures r.reading == x && r.distance == x * max
  {
    Sense(x, x * max)
  }

  /** With a non-zero range the two setters undo each other. */
  lemma SettersInverse(x: real, d: real, max: real)
    requires max != 0.0
    ensures AfterSetDistance(AfterSetReading(x, max).distance, max) == AfterSetReading(x, max)
    ensures AfterSetReading(AfterSetDistance(d, max).reading, max) == AfterSetDistance(d, max)
  {
    assert (x * max) / max == x;
  }

  // ----- the device -----

  class RangeSensor {
    var robot: object?
    var reading: real
    var position: Point
    var direction: real
    var max: real
    var width: real
    var distance: real

    function Settings(): RangeSettings
      reads this`position, this`direction, this`max, this`width
    {
      RangeSettings(position, direction, max, width)
    }

    /** The distance agrees with the reading: `distance == reading * max`. */
    predicate Consistent()
      reads this
    {
      distance == reading * max
    }

    /** With a positive range the reading is a fraction of it. */
    predicate InUnit()
      reads this
    {
      max > 0.0 ==> 0.0 <= reading <= 1.0
    }

    /** A new sensor: the defaults, then the configuration. */
    constructor (config: RangeConfig)
      ensures robot == null && reading == 1.0
      ensures Settings() == ApplyConfig(DefaultSettings, config)
      ensures distance == max && Consistent()
    {
      robot := null;
      reading := 1.0;
      position := Point(10.0, 10.0);
      direction := 0.0;
      max := 100.0;
      width := 1.0;
      distance := 1.0 * 100.0;
      new;
      FromJson(config);
    }

    /** `from_json`: present keys replace the settings, then distance is recomputed. */
    method FromJson(config: RangeConfig)
      modifies this
      ensures Settings() == ApplyConfig(old(Settings()), config)
      ensures robot == old(robot) && reading == old(reading)
      ensures Consistent()
    {
      var s := ApplyConfig(Settings(), config);
      position, direction, max, width := s.position, s.direction, s.max, s.width;
      // the distance follows the (possibly new) range
      SetReading(reading);
    }

    /** `to_json`: the device type and every setting, angles back in degrees. */
    function ToJson(): (j: RangeJson)
      reads this
      ensures j.typeName == "RangeSensor"
    {
      RangeJson("RangeSensor", ToConfig(Settings()))
    }

    function GetDistance(): real reads this { distance }
    function GetReading(): real reads this { reading }

    /** `setDistance`: the division by a zero range raises after distance is already set. */
    method SetDistance(d: real) returns (ok: bool)
      modifies this`reading, this`distance
      ensures ok == (old(max) != 0.0)
      ensures ok ==> Sense(reading, distance) == AfterSetDistance(d, max)
      ensures !ok ==> distance == d && reading == old(reading)
      ensures ok ==> Consistent()
    {
      distance := d;
      if max == 0.0 {
        return false;
      }
      reading := distance / max;
      ok := true;
    }

    /** `setReading`. */
    method SetReading(x: real)
      modifies this`reading, this`distance
      ensures Sense(reading, distance) == AfterSetReading(x, max)
      ensures Consistent()
    {
      reading := x;
      distance := x * max;
    }

    /** The offsets `update` casts at: the arange cone, or a single straight ray when the
        width is zero. */
    method Offsets() returns (incrs: seq<real>)
      ensures incrs == ConeOffsets(width)
    {
      if width != 0.0 {
        incrs := Arange(-width / 2.0, width / 2.0, width / 2.0);
        ConeIncrements(width);
      } else {
        incrs := [0.0];
      }
    }

    /** One ray of `update`: its last (nearest) hit lowers the distance if it is closer. */
    method CastAt(pose: Pose, ss: seq<Surface>, me: object, incr: real, m: Math)
      requires distance <= max && (distance == max ==> reading == 1.0) && Consistent() && InUnit()
      modifies this`reading, this`distance
      ensures distance == Closer(old(distance), RayHits(Settings(), pose, ss, me, incr, m))
      ensures distance <= max && (distance == max ==> reading == 1.0) && Consistent() && InUnit()
    {
      var p := SensorPoint(position, pose, m);
      var a := RayHeading(pose, direction, incr, m);
      var hits := RayCast.CastRay(ss, me, p.x, p.y, a, max, m);
      CastDistancesNonNegative(ss, me, p.x, p.y, a, max, m);
      LowerTo(hits);
    }

    /** The effect of one ray's hits: the last one, the nearest, replaces the distance if it
        is closer. */
    method LowerTo(hits: seq<Hit>)
      requires forall h :: h in hits ==> h.distance >= 0.0
      requires distance <= max && (distance == max ==> reading == 1.0) && Consistent() && InUnit()
      modifies this`reading, this`distance
      ensures distance == Closer(old(distance), hits)
      ensures distance <= max && (distance == max ==> reading == 1.0) && Consistent() && InUnit()
    {
      if |hits| > 0 {
        // closest hit
        if hits[|hits| - 1].distance < GetDistance() {
          assert hits[|hits| - 1] in hits;
          var ok := SetDistance(hits[|hits| - 1].distance);
          if max > 0.0 {
            RatioInUnit(distance, max);
          }
        }
      }
    }

    /** `update`: reset to the full range, then let the nearest hit of each ray of the cone
        lower the distance. The robot's pose, the walls and the robot's identity are given. */
    method Update(pose: Pose, ss: seq<Surface>, me: object, m: Math)
      modifies this`reading, this`distance
      ensures distance == Sensed(Settings(), pose, ss, me, m)
      ensures distance == max ==> reading == 1.0
      ensures Consistent()
      ensures max > 0.0 ==> 0.0 <= reading <= 1.0
    {
      var s := Settings();
      SetReading(1.0);
      var incrs := Offsets();
      var i := 0;
      while i < |incrs|
        invariant 0 <= i <= |incrs| && s == Settings()
        invariant distance == Nearest(max, RayLists(s, pose, ss, me, incrs[..i], m))
        invariant distance <= max && (distance == max ==> reading == 1.0) && Consistent() && InUnit()
      {
        RayListsStep(s, pose, ss, me, incrs, i, m);
        CastAt(pose, ss, me, incrs[i], m);
        i := i + 1;
      }
      assert incrs[..i] == incrs;
    }
  }

  /** A distance within a positive range is a reading in [0, 1]. */
  lemma RatioInUnit(d: real, max: real)
    requires max > 0.0 && 0.0 <= d <= max
    ensures 0.0 <= d / max <= 1.0
  {
    assert d / max * max == d;
  }

  /** The lists of the first i + 1 rays extend those of the first i by ray i's; the distance
      after them is that of the first i, lowered by ray i. */
  lemma RayListsStep(s: RangeSettings, pose: Pose, ss: seq<Surface>, me: object, incrs: seq<real>, i: nat, m: Math)
    requires i < |incrs|
    ensures RayLists(s, pose, ss, me, incrs[..i + 1], m) ==
            RayLists(s, pose, ss, me, incrs[..i], m) + [RayHits(s, pose, ss, me, incrs[i], m)]
    ensures forall d ::
      Nearest(d, RayLists(s, pose, ss, me, incrs[..i + 1], m)) ==
      Closer(Nearest(d, RayLists(s, pose, ss, me, incrs[..i], m)), RayHits(s, pose, ss, me, incrs[i], m))
  {
    var a := RayLists(s, pose, ss, me, incrs[..i + 1], m);
    var b := RayLists(s, pose, ss, me, incrs[..i], m) + [RayHits(s, pose, ss, me, incrs[i], m)];
    assert forall k :: 0 <= k < i + 1 ==> a[k] == b[k];
    assert a[..i] == RayLists(s, pose, ss, me, incrs[..i], m);
  }

  /** The reported distance is never negative when the range is not. */
  lemma SensedWithinRange(s: RangeSettings, pose: Pose, ss: seq<Surface>, me: object, m: Math)
    requires s.max >= 0.0
    ensures 0.0 <= Sensed(s, pose, ss, me, m) <= s.max
  {
    var lists := RayLists(s, pose, ss, me, ConeOffsets(s.width), m);
    NearestIsLowerBound(s.max, lists);
    NearestIsAttained(s.max, lists);
    if Sensed(s, pose, ss, me, m) != s.max {
      var k :| 0 <= k < |lists| && lists[k] != [] && Sensed(s, pose, ss, me, m) == Last(lists[k]).distance;
      var p := SensorPoint(s.position, pose, m);
      var incr := ConeOffsets(s.width)[k];
      CastDistancesNonNegative(ss, me, p.x, p.y, RayHeading(pose, s.direction, incr, m), s.max, m);
      assert Last(lists[k]) in lists[k];
    }
  }

  /** Loading what `to_json` wrote, into any sensor, restores every setting. */
  lemma ToJsonLoads(sensor: RangeSensor, before: RangeSettings)
    ensures ApplyConfig(before, sensor.ToJson().config) == sensor.Settings()
  {
    JsonRoundTrip(before, sensor.Settings());
  }

  /** A sensor that sees nothing keeps the full range. */
  lemma NothingInSight(s: RangeSettings, pose: Pose, ss: seq<Surface>, me: object, m: Math)
    requires forall k :: 0 <= k < |ConeOffsets(s.width)| ==> RayHits(s, pose, ss, me, ConeOffsets(s.width)[k], m) == []
    ensures Sensed(s, pose, ss, me, m) == s.max
  {
    NoHitsKeepsDistance(s.max, RayLists(s, pose, ss, me, ConeOffsets(s.width), m));
  }

  /** A sensor whose range is zero sees nothing. */
  lemma ZeroRangeSeesNothing(s: RangeSettings, pose: Pose, ss: seq<Surface>, me: object, m: Math)
    requires s.max == 0.0
    ensures Sensed(s, pose, ss, me, m) == 0.0
  {
    var incrs := ConeOffsets(s.width);
    forall k | 0 <= k < |incrs| ensures RayHits(s, pose, ss, me, incrs[k], m) == [] {
      var p := SensorPoint(s.position, pose, m);
      ZeroRangeHitsNothing(ss, me, p.x, p.y, RayHeading(pose, s.direction, incrs[k], m), m);
    }
    NoHitsKeepsDistance(s.max, RayLists(s, pose, ss, me, incrs, m));
  }
}
