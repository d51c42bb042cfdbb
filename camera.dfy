/** The camera: one ray per picture column, fanned across the field of view, and a picture
    composed from the hits of those rays. Walls (hits of height 1.0) give each column a band
    of wall colour between sky and ground; other robots (hits of lower height) are painted on
    top as vertical strips, and the rows each robot covers are recorded per robot name. */
module Cameras {
  import opened Wrappers
  import opened Utils
  import opened Numeric
  import opened RayCast
  import opened Kinematics

  /** The size and field of view every new camera has. */
  const DefaultWidth: nat := 256
  const DefaultHeight: nat := 128
  const DefaultFov: real := 60.0

  /** How far each column's ray reaches. */
  const CameraRange: real := 1000.0

  // ----- settings and their JSON form -----

  /** The settings `from_json` reads; the angle is kept in radians. */
  datatype CameraSettings = CameraSettings(width: nat, height: nat, colorsFade: real, sizeFade: real,
                                           reflectGround: bool, reflectSky: bool, angle: real)

  /** A configuration dictionary: each key may be absent; the angle is in degrees. */
  datatype CameraConfig = CameraConfig(width: Option<nat>, height: Option<nat>,
                                       colorsFade: Option<real>, sizeFade: Option<real>,
                                       reflectGround: Option<bool>, reflectSky: Option<bool>,
                                       angle: Option<real>)

  /** What `to_json` returns: the class name and every key of the configuration. */
  datatype CameraJson = CameraJson(className: string, config: CameraConfig)

  /** The effect of `from_json` on the settings: present keys replace, degrees become radians. */
  function ApplyConfig(s: CameraSettings, c: CameraConfig): (r: CameraSettings)
    ensures r.width == (if c.width.Some? then c.width.value else s.width)
    ensures r.height == (if c.height.Some? then c.height.value else s.height)
    ensures r.colorsFade == (if c.colorsFade.Some? then c.colorsFade.value else s.colorsFade)
    ensures r.sizeFade == (if c.sizeFade.Some? then c.sizeFade.value else s.sizeFade)
    ensures r.reflectGround == (if c.reflectGround.Some? then c.reflectGround.value else s.reflectGround)
    ensures r.reflectSky == (if c.reflectSky.Some? then c.reflectSky.value else s.reflectSky)
    ensures r.angle == (if c.angle.Some? then DegToRad(c.angle.value) else s.angle)
  {
    CameraSettings(
      if c.width.Some? then c.width.value else s.width,
      if c.height.Some? then c.height.value else s.height,
      if c.colorsFade.Some? then c.colorsFade.value else s.colorsFade,
      if c.sizeFade.Some? then c.sizeFade.value else s.sizeFade,
      if c.reflectGround.Some? then c.reflectGround.value else s.reflectGround,
      if c.reflectSky.Some? then c.reflectSky.value else s.reflectSky,
      if c.angle.Some? then DegToRad(c.angle.value) else s.angle)
  }

  /** The configuration `to_json` writes for some settings: every key, the angle in degrees. */
  function ToConfig(s: CameraSettings): CameraConfig {
    CameraConfig(Some(s.width), Some(s.height), Some(s.colorsFade), Some(s.sizeFade),
                 Some(s.reflectGround), Some(s.reflectSky), Some(RadToDeg(s.angle)))
  }

  /** Loading what `to_json` wrote restores the settings, whatever they were before. */
  lemma JsonRoundTrip(before: CameraSettings, s: CameraSettings)
    ensures ApplyConfig(before, ToConfig(s)) == s
  {
    DegreesRoundTrip(s.angle);
  }

  // ----- the rays -----

  /** The offset of column i from the camera's axis: `i / width * angle - angle / 2`. */
  function ColumnAngle(i: nat, width: nat, angle: real): real
    requires i < width
  {
    i as real / width as real * angle - angle / 2.0
  }

  /** The hits of column i's ray: from the robot's centre, at `pi/2 - direction - offset`. */
  function ColumnHits(i: nat, width: nat, angle: real, pose: Pose, ss: seq<Surface>, me: object, m: Math): seq<Hit>
    requires i < width
  {
    Cast(ss, me, pose.x, pose.y, ColumnDirection(i, width, angle, pose, m), CameraRange, m)
  }

  function ColumnDirection(i: nat, width: nat, angle: real, pose: Pose, m: Math): real
    requires i < width
  {
    Pi / 2.0 - pose.direction - ColumnAngle(i, width, angle)
  }

  /** The first `done` columns hold their rays' hits; the others are as they were. */
  ghost predicate Captured(hits: seq<seq<Hit>>, before: seq<seq<Hit>>, done: nat, width: nat, angle: real,
                           pose: Pose, ss: seq<Surface>, me: object, m: Math)
  {
    && |hits| == |before|
    && done <= width
    && forall i :: 0 <= i < |hits| ==>
         hits[i] == if i < done then ColumnHits(i, width, angle, pose, ss, me, m) else before[i]
  }

  lemma CaptureOne(hits: seq<seq<Hit>>, before: seq<seq<Hit>>, done: nat, width: nat, angle: real,
                   pose: Pose, ss: seq<Surface>, me: object, m: Math, column: seq<Hit>)
    requires Captured(hits, before, done, width, angle, pose, ss, me, m)
    requires done < width && done < |hits|
    requires column == ColumnHits(done, width, angle, pose, ss, me, m)
    ensures Captured(hits[done := column], before, done + 1, width, angle, pose, ss, me, m)
  {
  }

  // ----- what a picture shows -----

  /** The kind of picture: "color", "depth", or (any other name) grey. */
  datatype Kind = ColorKind | DepthKind | GreyKind

  function KindOf(name: string): (k: Kind)
    ensures k == ColorKind <==> name == "color"
    ensures k == DepthKind <==> name == "depth"
  {
    if name == "color" then ColorKind else if name == "depth" then DepthKind else GreyKind
  }

  /** Everything the drawing depends on besides the hits: the number of rows, the two fade
      factors, the reflect flags, the distance scale and the kind of picture. */
  datatype Lens = Lens(rows: nat, colorsFade: real, sizeFade: real, reflectGround: bool, reflectSky: bool,
                       size: real, kind: Kind)

  /** `max(min(1 - distance / size, 1), 0)`. */
  function DistanceRatio(d: real, lens: Lens): real
    requires lens.size != 0.0
  {
    Clamp01(1.0 - d / lens.size)
  }

  /** `s`: how much of its full size a thing at distance d keeps. */
  function SizeScale(d: real, lens: Lens): real
    requires lens.size != 0.0
  {
    Clamp01(1.0 - d / lens.size * lens.sizeFade)
  }

  /** `sc`: how much of its colour a thing at distance d keeps. */
  function ColorScale(d: real, lens: Lens): real
    requires lens.size != 0.0
  {
    Clamp01(1.0 - d / lens.size * lens.colorsFade)
  }

  /** The colour a hit is drawn in: its own colour faded, a grey level for its distance, or the
      faded average of its components. */
  function Shade(h: Hit, lens: Lens): Color
    requires lens.size != 0.0
  {
    var sc := ColorScale(h.distance, lens);
    match lens.kind
    case ColorKind => Rgb(h.color.red * sc, h.color.green * sc, h.color.blue * sc)
    case DepthKind =>
      var level := 255.0 * DistanceRatio(h.distance, lens);
      Rgb(level, level, level)
    case GreyKind =>
      var avg := (h.color.red + h.color.green + h.color.blue) / 3.0;
      Rgb(avg * sc, avg * sc, avg * sc)
  }

  /** How far row j is from the horizon, as a fraction of half the picture. */
  function RowDistance(j: int, lens: Lens): real
    requires lens.rows > 0
  {
    var horizon := lens.rows as real / 2.0;
    Clamp01(Abs(j as real - horizon) / horizon)
  }

  function SkyColor(j: int, lens: Lens): Color
    requires lens.rows > 0
  {
    match lens.kind
    case DepthKind => if lens.reflectSky then Grey(255.0 * RowDistance(j, lens)) else Grey(0.0)
    case ColorKind => Rgb(0.0, 0.0, 128.0)
    case GreyKind => Grey(128.0 / 3.0)
  }

  function GroundColor(j: int, lens: Lens): Color
    requires lens.rows > 0
  {
    match lens.kind
    case DepthKind => if lens.reflectGround then Grey(255.0 * RowDistance(j, lens)) else Grey(0.0)
    case ColorKind => Rgb(0.0, 128.0, 0.0)
    case GreyKind => Grey(128.0 / 3.0)
  }

  /** Which part of a wall column a row belongs to. */
  datatype Band = Sky | WallBand | Ground

  /** Rows above `high / 2` are sky, rows from `rows - high / 2` down are ground. */
  function BandOf(j: int, high: real, rows: nat): Band {
    if (j as real) < high / 2.0 then Sky
    else if (j as real) < rows as real - high / 2.0 then WallBand
    else Ground
  }

  /** `high`: the rows of a wall column that are not wall. */
  function WallHigh(h: Hit, lens: Lens): real
    requires lens.size != 0.0
  {
    (1.0 - SizeScale(h.distance, lens)) * lens.rows as real
  }

  /** The column a wall hit draws: sky, faded wall, ground. */
  function WallColumn(h: Hit, lens: Lens): (col: seq<Color>)
    requires lens.size != 0.0
    ensures |col| == lens.rows
  {
    seq(lens.rows, j requires 0 <= j < lens.rows =>
      match BandOf(j, WallHigh(h, lens), lens.rows)
      case Sky => SkyColor(j, lens)
      case WallBand => Shade(h, lens)
      case Ground => GroundColor(j, lens))
  }

  /** Every row of a wall column is the wall's shade, or sky above the horizon, or ground
      at and below it. */
  lemma WallColumnRows(h: Hit, lens: Lens, j: int)
    requires lens.size != 0.0 && 0 <= j < lens.rows
    ensures || WallColumn(h, lens)[j] == Shade(h, lens)
            || ((j as real) < lens.rows as real / 2.0 && WallColumn(h, lens)[j] == SkyColor(j, lens))
            || ((j as real) >= lens.rows as real / 2.0 && WallColumn(h, lens)[j] == GroundColor(j, lens))
  {
    SkyAboveGroundBelow(h, lens, j);
  }

  /** The hits that pass the test, in order: `[hit for hit in hits if keep(hit)]`. */
  function Keep(hs: seq<Hit>, keep: Hit -> bool): (r: seq<Hit>)
    ensures |r| <= |hs|
  {
    if hs == [] then []
    else Keep(hs[..|hs| - 1], keep) + (if keep(hs[|hs| - 1]) then [hs[|hs| - 1]] else [])
  }

  /** Keep drops exactly the hits that fail the test: what it keeps comes from hs and passes,
      and every hit of hs that passes is kept. */
  lemma {:induction false} KeepExactly(hs: seq<Hit>, keep: Hit -> bool)
    ensures forall k :: 0 <= k < |Keep(hs, keep)| ==> Keep(hs, keep)[k] in hs && keep(Keep(hs, keep)[k])
    ensures forall k :: 0 <= k < |hs| && keep(hs[k]) ==> hs[k] in Keep(hs, keep)
  {
    if hs != [] {
      var init := hs[..|hs| - 1];
      var last := hs[|hs| - 1];
      KeepExactly(init, keep);
      var front := Keep(init, keep);
      var r := Keep(hs, keep);
      assert r == front + (if keep(last) then [last] else []);
      forall k | 0 <= k < |r|
        ensures r[k] in hs && keep(r[k])
      {
        if k < |front| {
          assert r[k] == front[k];
          var j :| 0 <= j < |init| && init[j] == front[k];
          assert hs[j] == init[j];
        }
      }
      forall k | 0 <= k < |hs| && keep(hs[k])
        ensures hs[k] in r
      {
        if k < |init| {
          assert hs[k] == init[k];
          var j :| 0 <= j < |front| && front[j] == init[k];
          assert r[j] == front[j];
        } else {
          assert r[|r| - 1] == last;
        }
      }
    }
  }

  /** A wall hit, for the first pass; `hit.height == 1.0`. */
  predicate OnWall(h: Hit) { h.height == 1.0 }

  /** A robot hit, for the second pass: `hit.height < 1.0`. */
  predicate OnRobot(h: Hit) { h.height < 1.0 }

  function WallHits(hs: seq<Hit>): seq<Hit> {
    Keep(hs, OnWall)
  }

  function RobotHits(hs: seq<Hit>): seq<Hit> {
    Keep(hs, OnRobot)
  }

  lemma RobotHitsStep(hs: seq<Hit>, h: Hit)
    ensures RobotHits(hs + [h]) == RobotHits(hs) + (if OnRobot(h) then [h] else [])
  {
    assert (hs + [h])[..|hs|] == hs;
  }

  lemma RobotHitsAreRobots(hs: seq<Hit>)
    ensures forall k :: 0 <= k < |RobotHits(hs)| ==> RobotHits(hs)[k].height < 1.0
  {
    KeepExactly(hs, OnRobot);
  }

  /** Filtering keeps a farthest-first list farthest first. */
  lemma {:induction false} KeepOrdered(hs: seq<Hit>, keep: Hit -> bool)
    ensures FarthestFirstOrder(hs) ==> FarthestFirstOrder(Keep(hs, keep))
    decreases |hs|
  {
    if hs != [] && FarthestFirstOrder(hs) {
      var init, last := hs[..|hs| - 1], hs[|hs| - 1];
      assert forall i :: 0 <= i < |init| ==> init[i] == hs[i];
      KeepOrdered(init, keep);
      KeepExactly(init, keep);
      var front := Keep(init, keep);
      if keep(last) {
        forall i | 0 <= i < |front|
          ensures front[i].distance >= last.distance
        {
          var j :| 0 <= j < |init| && init[j] == front[i];
        }
      }
    }
  }

  /** The wall hit the first pass draws: in a farthest-first column, the nearest one. */
  lemma NearestWallHit(hs: seq<Hit>)
    requires WallHits(hs) != []
    ensures WallHits(hs)[|WallHits(hs)| - 1] in hs
    ensures WallHits(hs)[|WallHits(hs)| - 1].height == 1.0
    ensures FarthestFirstOrder(hs) ==> forall j :: 0 <= j < |hs| && hs[j].height == 1.0 ==>
      WallHits(hs)[|WallHits(hs)| - 1].distance <= hs[j].distance
  {
    var ws := WallHits(hs);
    KeepExactly(hs, OnWall);
    KeepOrdered(hs, OnWall);
    assert OnWall(ws[|ws| - 1]);
    if FarthestFirstOrder(hs) {
      forall j | 0 <= j < |hs| && hs[j].height == 1.0
        ensures ws[|ws| - 1].distance <= hs[j].distance
      {
        assert OnWall(hs[j]);
        var t :| 0 <= t < |ws| && ws[t] == hs[j];
      }
    }
  }

  /** The first pass over one column: the last wall hit, if any, redraws the whole column;
      with no wall hit the column stays as it was. */
  function WallPass(hs: seq<Hit>, lens: Lens, col: seq<Color>): (r: seq<Color>)
    requires lens.size != 0.0 && |col| == lens.rows
    ensures |r| == lens.rows
  {
    var ws := WallHits(hs);
    if ws == [] then col else WallColumn(ws[|ws| - 1], lens)
  }

  /** With no wall hit the first pass leaves the column as it was; otherwise it redraws it
      from a wall hit of the column, in a farthest-first column the nearest one. */
  lemma WallPassDrawsNearestWall(hs: seq<Hit>, lens: Lens, col: seq<Color>)
    requires lens.size != 0.0 && |col| == lens.rows
    ensures (forall j :: 0 <= j < |hs| ==> hs[j].height != 1.0) ==> WallPass(hs, lens, col) == col
    ensures (exists j :: 0 <= j < |hs| && hs[j].height == 1.0) ==>
      exists h :: h in hs && h.height == 1.0 && WallPass(hs, lens, col) == WallColumn(h, lens) &&
        (FarthestFirstOrder(hs) ==> forall j :: 0 <= j < |hs| && hs[j].height == 1.0 ==> h.distance <= hs[j].distance)
  {
    KeepExactly(hs, OnWall);
    if WallHits(hs) != [] {
      NearestWallHit(hs);
    } else {
      forall j | 0 <= j < |hs|
        ensures hs[j].height != 1.0
      {
        if hs[j].height == 1.0 {
          assert OnWall(hs[j]);
        }
      }
    }
  }

  // ----- the closest wall and what it hides -----

  /** A distance that may be infinite, as `float("inf")` is. */
  datatype Extent = Finite(d: real) | Infinite

  /** `find_closest_wall`: the distance of the last hit of height at least 1.0 (in a
      farthest-first list, the nearest), or infinity when there is none. */
  function ClosestWall(hs: seq<Hit>): Extent {
    if hs == [] then Infinite
    else if hs[|hs| - 1].height >= 1.0 then Finite(hs[|hs| - 1].distance)
    else ClosestWall(hs[..|hs| - 1])
  }

  /** A hit farther away than the closest wall. */
  predicate Behind(h: Hit, wall: Extent) {
    wall.Finite? && h.distance > wall.d
  }

  /** The robot hits as the loop in `take_picture` takes them: in order, up to the first one
      behind the closest wall, where it breaks off. */
  function UpToWall(hs: seq<Hit>, wall: Extent): (r: seq<Hit>)
    ensures |r| <= |hs| && r == hs[..|r|]
    ensures forall k :: 0 <= k < |r| ==> !Behind(r[k], wall)
    ensures |r| < |hs| ==> Behind(hs[|r|], wall)
  {
    if hs == [] || Behind(hs[0], wall) then [] else [hs[0]] + UpToWall(hs[1..], wall)
  }

  /** The robot hits that are not behind the closest wall, in order. */
  function InFront(hs: seq<Hit>, wall: Extent): seq<Hit> {
    Keep(hs, (h: Hit) => !Behind(h, wall))
  }

  lemma InFrontStep(hs: seq<Hit>, h: Hit, wall: Extent)
    ensures InFront(hs + [h], wall) == InFront(hs, wall) + (if Behind(h, wall) then [] else [h])
  {
    assert (hs + [h])[..|hs|] == hs;
  }

  lemma InFrontPrefix(hs: seq<Hit>, k: nat, wall: Extent)
    requires k < |hs|
    ensures InFront(hs[..k + 1], wall) ==
      if Behind(hs[k], wall) then InFront(hs[..k], wall) else InFront(hs[..k], wall) + [hs[k]]
  {
    assert hs[..k + 1] == hs[..k] + [hs[k]];
    InFrontStep(hs[..k], hs[k], wall);
    assert InFront(hs[..k], wall) + [] == InFront(hs[..k], wall);
  }

  /** The robot hits painted over column hs. */
  function Overlaid(hs: seq<Hit>): (r: seq<Hit>)
    ensures |r| <= |hs|
  {
    InFront(RobotHits(hs), ClosestWall(hs))
  }

  /** The robot hits the loop as written paints over column hs. */
  function Written(hs: seq<Hit>): (r: seq<Hit>)
    ensures |r| <= |hs|
  {
    UpToWall(RobotHits(hs), ClosestWall(hs))
  }

  /** Some hit behind the wall comes before a hit in front of it. */
  predicate BreaksEarly(hs: seq<Hit>, wall: Extent) {
    exists i, j :: 0 <= i < j < |hs| && Behind(hs[i], wall) && !Behind(hs[j], wall)
  }

  lemma {:induction false} InFrontFront(h: Hit, t: seq<Hit>, wall: Extent)
    ensures InFront([h] + t, wall) == (if Behind(h, wall) then [] else [h]) + InFront(t, wall)
    decreases |t|
  {
    if t == [] {
      InFrontStep([], h, wall);
      assert [] + [h] == [h] + t;
    } else {
      var init, last := t[..|t| - 1], t[|t| - 1];
      assert [h] + t == ([h] + init) + [last];
      assert t == init + [last];
      InFrontStep([h] + init, last, wall);
      InFrontStep(init, last, wall);
      InFrontFront(h, init, wall);
    }
  }

  lemma {:induction false} InFrontEmpty(hs: seq<Hit>, wall: Extent)
    ensures InFront(hs, wall) == [] <==> forall j :: 0 <= j < |hs| ==> Behind(hs[j], wall)
    decreases |hs|
  {
    if hs != [] {
      var t := hs[1..];
      assert hs == [hs[0]] + t;
      InFrontFront(hs[0], t, wall);
      InFrontEmpty(t, wall);
      assert forall j :: 0 <= j < |t| ==> t[j] == hs[j + 1];
      if forall j :: 0 <= j < |hs| ==> Behind(hs[j], wall) {
        assert forall j :: 0 <= j < |t| ==> Behind(t[j], wall);
      } else {
        var j :| 0 <= j < |hs| && !Behind(hs[j], wall);
        if j > 0 {
          assert !Behind(t[j - 1], wall);
        }
      }
    }
  }

  /** A column whose first hit is behind the wall: the `break` paints nothing, and the intended
      pass paints nothing exactly when nothing breaks early. */
  lemma FirstBehind(hs: seq<Hit>, wall: Extent)
    requires hs != [] && Behind(hs[0], wall)
    ensures UpToWall(hs, wall) == []
    ensures InFront(hs, wall) == [] <==> !BreaksEarly(hs, wall)
  {
    var t := hs[1..];
    assert hs == [hs[0]] + t;
    InFrontFront(hs[0], t, wall);
    InFrontEmpty(t, wall);
    if BreaksEarly(hs, wall) {
      var i, j :| 0 <= i < j < |hs| && Behind(hs[i], wall) && !Behind(hs[j], wall);
      assert !Behind(t[j - 1], wall);
    }
  }

  /** A first hit in front of the wall cannot start an early break. */
  lemma FirstInFront(hs: seq<Hit>, wall: Extent)
    requires hs != [] && !Behind(hs[0], wall)
    ensures BreaksEarly(hs, wall) <==> BreaksEarly(hs[1..], wall)
  {
    var t := hs[1..];
    if BreaksEarly(hs, wall) {
      var i, j :| 0 <= i < j < |hs| && Behind(hs[i], wall) && !Behind(hs[j], wall);
      assert Behind(t[i - 1], wall) && !Behind(t[j - 1], wall);
    }
    if BreaksEarly(t, wall) {
      var i, j :| 0 <= i < j < |t| && Behind(t[i], wall) && !Behind(t[j], wall);
      assert Behind(hs[i + 1], wall) && !Behind(hs[j + 1], wall);
    }
  }

  /** What the loop as written paints is a leading part of what the intended pass paints, and
      all of it exactly when no hit behind the wall comes before one in front of it. */
  lemma {:induction false} UpToWallIsPrefix(hs: seq<Hit>, wall: Extent)
    ensures |UpToWall(hs, wall)| <= |InFront(hs, wall)|
    ensures UpToWall(hs, wall) == InFront(hs, wall)[..|UpToWall(hs, wall)|]
    ensures UpToWall(hs, wall) == InFront(hs, wall) <==> !BreaksEarly(hs, wall)
    decreases |hs|
  {
    if hs != [] {
      var h, t := hs[0], hs[1..];
      assert hs == [h] + t;
      if Behind(h, wall) {
        FirstBehind(hs, wall);
      } else {
        InFrontFront(h, t, wall);
        UpToWallIsPrefix(t, wall);
        FirstInFront(hs, wall);
        var u, f := UpToWall(t, wall), InFront(t, wall);
        assert UpToWall(hs, wall) == [h] + u;
        assert InFront(hs, wall) == [h] + f;
        assert ([h] + f)[..|[h] + u|] == [h] + f[..|u|];
      }
    }
  }

  /** Column by column: the `break` paints a leading part of the intended robot hits, and all
      of them exactly when no robot behind the closest wall comes before one in front. */
  lemma WrittenIsPrefixOfOverlaid(hs: seq<Hit>)
    ensures |Written(hs)| <= |Overlaid(hs)| && Written(hs) == Overlaid(hs)[..|Written(hs)|]
    ensures Written(hs) == Overlaid(hs) <==> !BreaksEarly(RobotHits(hs), ClosestWall(hs))
  {
    UpToWallIsPrefix(RobotHits(hs), ClosestWall(hs));
  }

  // ----- the robot strips -----

  /** `distance_to`: how far above the bottom a robot's strip starts. */
  function DistanceTo(h: Hit, lens: Lens): real
    requires lens.size != 0.0
  {
    lens.rows as real / 2.0 * (1.0 - ColorScale(h.distance, lens))
  }

  /** `round(distance_to)`. */
  function Lift(h: Hit, lens: Lens): int
    requires lens.size != 0.0
  {
    RoundHalfEven(DistanceTo(h, lens))
  }

  /** `height`: the rows a robot's strip covers, `round(hit.height * rows / 2 * s)`. */
  function StripHeight(h: Hit, lens: Lens): int
    requires lens.size != 0.0
  {
    RoundHalfEven(StripRise(h, lens))
  }

  /** The unrounded strip height. */
  function StripRise(h: Hit, lens: Lens): real
    requires lens.size != 0.0
  {
    h.height * lens.rows as real / 2.0 * SizeScale(h.distance, lens)
  }

  /** The lowest row of the strip, `rows - 1 - round(distance_to)`. */
  function StripBottom(h: Hit, lens: Lens): int
    requires lens.size != 0.0
  {
    lens.rows - 1 - Lift(h, lens)
  }

  /** The strip is the rows `bottom - j` for `0 <= j < height`. */
  predicate InStrip(r: int, h: Hit, lens: Lens)
    requires lens.size != 0.0
  {
    StripBottom(h, lens) - StripHeight(h, lens) < r <= StripBottom(h, lens)
  }

  /** Column col with the robot hit h painted over it. */
  function Paint(col: seq<Color>, h: Hit, lens: Lens): (r: seq<Color>)
    requires lens.size != 0.0
    ensures |r| == |col|
  {
    seq(|col|, r requires 0 <= r < |col| => if InStrip(r, h, lens) then Shade(h, lens) else col[r])
  }

  /** Column col with the robot hits painted over it in order, later ones over earlier ones. */
  function PaintAll(col: seq<Color>, hs: seq<Hit>, lens: Lens): (r: seq<Color>)
    requires lens.size != 0.0
    ensures |r| == |col|
  {
    if hs == [] then col else Paint(PaintAll(col, hs[..|hs| - 1], lens), hs[|hs| - 1], lens)
  }

  lemma PaintAllStep(col: seq<Color>, hs: seq<Hit>, h: Hit, lens: Lens)
    requires lens.size != 0.0
    ensures PaintAll(col, hs + [h], lens) == Paint(PaintAll(col, hs, lens), h, lens)
  {
    assert (hs + [h])[..|hs|] == hs;
  }

  /** The transparent colour a new picture starts with. */
  const Clear: Color := Color(0.0, 0.0, 0.0, 0.0)

  /** A column nothing has been drawn on. */
  function Blank(rows: nat): seq<Color> {
    seq(rows, _ => Clear)
  }

  /** Column i of the picture, from that column's hits. */
  function ColumnImage(hs: seq<Hit>, lens: Lens): (col: seq<Color>)
    requires lens.size != 0.0
    ensures |col| == lens.rows
  {
    PaintAll(WallPass(hs, lens, Blank(lens.rows)), Overlaid(hs), lens)
  }

  /** The index of the last hit whose strip covers row b, or -1 when no strip covers it. */
  function LastCover(b: int, hs: seq<Hit>, lens: Lens): (k: int)
    requires lens.size != 0.0
    ensures -1 <= k < |hs|
    ensures k >= 0 ==> InStrip(b, hs[k], lens)
    ensures forall q :: k < q < |hs| ==> !InStrip(b, hs[q], lens)
  {
    if hs == [] then -1
    else if InStrip(b, hs[|hs| - 1], lens) then |hs| - 1
    else LastCover(b, hs[..|hs| - 1], lens)
  }

  lemma {:induction false} PaintAllCover(col: seq<Color>, hs: seq<Hit>, lens: Lens, b: int)
    requires lens.size != 0.0 && 0 <= b < |col|
    ensures var k := LastCover(b, hs, lens);
            PaintAll(col, hs, lens)[b] == if k < 0 then col[b] else Shade(hs[k], lens)
    decreases |hs|
  {
    if hs != [] {
      PaintAllCover(col, hs[..|hs| - 1], lens, b);
    }
  }

  /** Every row of a column with robots painted over it shows the last robot whose strip
      covers the row, or the column underneath when no strip covers it. */
  lemma PaintAllRows(col: seq<Color>, hs: seq<Hit>, lens: Lens, b: int)
    requires lens.size != 0.0 && 0 <= b < |col|
    ensures || (PaintAll(col, hs, lens)[b] == col[b] && forall k :: 0 <= k < |hs| ==> !InStrip(b, hs[k], lens))
            || exists k :: 0 <= k < |hs| && InStrip(b, hs[k], lens) && PaintAll(col, hs, lens)[b] == Shade(hs[k], lens) &&
                 forall q :: k < q < |hs| ==> !InStrip(b, hs[q], lens)
  {
    PaintAllCover(col, hs, lens, b);
    var k := LastCover(b, hs, lens);
    if k >= 0 {
      assert InStrip(b, hs[k], lens) && PaintAll(col, hs, lens)[b] == Shade(hs[k], lens);
    }
  }

  /** Every row of a finished column shows the last robot painted over it, or else what the
      first pass drew there. */
  lemma ColumnImageRows(hs: seq<Hit>, lens: Lens, b: int)
    requires lens.size != 0.0 && 0 <= b < lens.rows
    ensures var over := Overlaid(hs);
      || (ColumnImage(hs, lens)[b] == WallPass(hs, lens, Blank(lens.rows))[b] &&
          forall k :: 0 <= k < |over| ==> !InStrip(b, over[k], lens))
      || exists k :: 0 <= k < |over| && InStrip(b, over[k], lens) && ColumnImage(hs, lens)[b] == Shade(over[k], lens) &&
           forall q :: k < q < |over| ==> !InStrip(b, over[q], lens)
  {
    PaintAllRows(WallPass(hs, lens, Blank(lens.rows)), Overlaid(hs), lens, b);
  }

  /** A picture nothing has been drawn on. */
  function Blanks(width: nat, rows: nat): seq<seq<Color>> {
    seq(width, _ => Blank(rows))
  }

  /** The picture after the first pass: each column's nearest wall, or blank. */
  function FirstPass(cols: seq<seq<Hit>>, lens: Lens): (shown: seq<seq<Color>>)
    requires lens.size != 0.0
    ensures |shown| == |cols|
    ensures forall a :: 0 <= a < |shown| ==> |shown[a]| == lens.rows
  {
    seq(|cols|, a requires 0 <= a < |cols| => WallPass(cols[a], lens, Blank(lens.rows)))
  }

  /** The finished picture, column by column. */
  function Image(cols: seq<seq<Hit>>, lens: Lens): (shown: seq<seq<Color>>)
    requires lens.size != 0.0
    ensures |shown| == |cols|
  {
    seq(|cols|, a requires 0 <= a < |cols| => ColumnImage(cols[a], lens))
  }

  // ----- the obstacle record -----

  /** The rows and columns a robot was seen in: `min_x`, `max_x`, `min_y`, `max_y`. */
  datatype Obstacle = Obstacle(robot: object, minX: int, maxX: int, minY: int, maxY: int)

  /** `record_obstacle` for one robot: a first record starts at the given column and rows (the
      infinities it starts from give way to them); later ones widen the ranges. */
  function Recorded(o: Option<Obstacle>, robot: object, x: int, y1: int, y2: int): (r: Obstacle)
    ensures r.minX <= x <= r.maxX && r.minY <= y1 <= r.maxY && r.minY <= y2 <= r.maxY
    ensures o.None? ==> r == Obstacle(robot, x, x, IMin(y1, y2), IMax(y1, y2))
    ensures o.Some? ==> r.robot == o.value.robot
    ensures o.Some? ==> r.minX == IMin(o.value.minX, x) && r.maxX == IMax(o.value.maxX, x)
    ensures o.Some? ==> r.minY == IMin(o.value.minY, IMin(y1, y2)) && r.maxY == IMax(o.value.maxY, IMax(y1, y2))
  {
    match o
    case None => Obstacle(robot, x, x, IMin(y1, y2), IMax(y1, y2))
    case Some(b) =>
      Obstacle(b.robot, IMin(b.minX, x), IMax(b.maxX, x),
               IMin(b.minY, IMin(y1, y2)), IMax(b.maxY, IMax(y1, y2)))
  }

  /** The recorded ranges are never empty. */
  predicate Ordered(obs: map<string, Obstacle>) {
    forall name :: name in obs ==> obs[name].minX <= obs[name].maxX && obs[name].minY <= obs[name].maxY
  }

  /** The record of one robot hit in column i: its strip's bottom row and the row above its top. */
  function Note(obs: map<string, Obstacle>, i: int, h: Hit, lens: Lens): map<string, Obstacle>
    requires lens.size != 0.0
  {
    match h.owner
    case NoOwner => obs
    case OwnedBy(robot, name, _) =>
      var start := if name in obs then Some(obs[name]) else None;
      obs[name := Recorded(start, robot, i, StripBottom(h, lens),
                           lens.rows - StripHeight(h, lens) - 1 - 1 - Lift(h, lens))]
  }

  function NoteAll(obs: map<string, Obstacle>, i: int, hs: seq<Hit>, lens: Lens): map<string, Obstacle>
    requires lens.size != 0.0
  {
    if hs == [] then obs else Note(NoteAll(obs, i, hs[..|hs| - 1], lens), i, hs[|hs| - 1], lens)
  }

  lemma NoteAllStep(obs: map<string, Obstacle>, i: int, hs: seq<Hit>, h: Hit, lens: Lens)
    requires lens.size != 0.0
    ensures NoteAll(obs, i, hs + [h], lens) == Note(NoteAll(obs, i, hs, lens), i, h, lens)
  {
    assert (hs + [h])[..|hs|] == hs;
  }

  /** Some hit of hs belongs to the robot called name. */
  predicate Shown(name: string, hs: seq<Hit>) {
    exists k :: 0 <= k < |hs| && hs[k].owner.OwnedBy? && hs[k].owner.name == name
  }

  /** Recording robot hits adds a record for exactly the robots they belong to. */
  lemma {:induction false} NoteAllNames(obs: map<string, Obstacle>, i: int, hs: seq<Hit>, lens: Lens)
    requires lens.size != 0.0
    ensures forall name :: name in NoteAll(obs, i, hs, lens) <==> name in obs || Shown(name, hs)
    decreases |hs|
  {
    if hs != [] {
      var init, last := hs[..|hs| - 1], hs[|hs| - 1];
      NoteAllNames(obs, i, init, lens);
      forall name
        ensures Shown(name, hs) <==> Shown(name, init) || (last.owner.OwnedBy? && last.owner.name == name)
      {
        if Shown(name, init) {
          var k :| 0 <= k < |init| && init[k].owner.OwnedBy? && init[k].owner.name == name;
          assert hs[k] == init[k];
        }
        if Shown(name, hs) {
          var k :| 0 <= k < |hs| && hs[k].owner.OwnedBy? && hs[k].owner.name == name;
          if k < |init| {
            assert init[k] == hs[k];
          }
        }
      }
    }
  }

  /** The record the second pass leaves after the given columns, starting from nothing: one
      record for exactly the robots painted in some column. */
  function Survey(cols: seq<seq<Hit>>, lens: Lens): (obs: map<string, Obstacle>)
    requires lens.size != 0.0
    ensures forall name :: name in obs <==> exists i :: 0 <= i < |cols| && Shown(name, Overlaid(cols[i]))
  {
    if cols == [] then map[]
    else
      var init := cols[..|cols| - 1];
      var prev := Survey(init, lens);
      NoteAllNames(prev, |cols| - 1, Overlaid(cols[|cols| - 1]), lens);
      assert forall i :: 0 <= i < |init| ==> init[i] == cols[i];
      NoteAll(prev, |cols| - 1, Overlaid(cols[|cols| - 1]), lens)
  }

  /** The record the loop as written keeps, with its `break`, after the given columns. */
  function WrittenSurvey(cols: seq<seq<Hit>>, lens: Lens): (obs: map<string, Obstacle>)
    requires lens.size != 0.0
    ensures forall name :: name in obs <==> exists i :: 0 <= i < |cols| && Shown(name, Written(cols[i]))
  {
    if cols == [] then map[]
    else
      var init := cols[..|cols| - 1];
      var prev := WrittenSurvey(init, lens);
      NoteAllNames(prev, |cols| - 1, Written(cols[|cols| - 1]), lens);
      assert forall i :: 0 <= i < |init| ==> init[i] == cols[i];
      NoteAll(prev, |cols| - 1, Written(cols[|cols| - 1]), lens)
  }

  lemma SurveyStep(cols: seq<seq<Hit>>, column: seq<Hit>, lens: Lens)
    requires lens.size != 0.0
    ensures Survey(cols + [column], lens) == NoteAll(Survey(cols, lens), |cols|, Overlaid(column), lens)
  {
    var all := cols + [column];
    assert all[..|all| - 1] == cols;
    assert all[|all| - 1] == column;
  }

  lemma SurveyPrefix(cols: seq<seq<Hit>>, i: nat, lens: Lens)
    requires lens.size != 0.0 && i < |cols|
    ensures Survey(cols[..i + 1], lens) == NoteAll(Survey(cols[..i], lens), i, Overlaid(cols[i]), lens)
  {
    assert cols[..i + 1] == cols[..i] + [cols[i]];
    SurveyStep(cols[..i], cols[i], lens);
  }

  // ----- properties of the picture -----

  /** The closest wall is the last hit of height at least 1.0: infinite exactly when there is
      no such hit, and otherwise the distance of one with none after it. */
  lemma {:induction false} ClosestWallIsLastWall(hs: seq<Hit>)
    ensures ClosestWall(hs).Infinite? <==> forall k :: 0 <= k < |hs| ==> hs[k].height < 1.0
    ensures ClosestWall(hs).Finite? ==>
      exists k :: 0 <= k < |hs| && hs[k].height >= 1.0 && hs[k].distance == ClosestWall(hs).d &&
        forall q :: k < q < |hs| ==> hs[q].height < 1.0
  {
    if hs != [] {
      var n := |hs| - 1;
      var init := hs[..n];
      ClosestWallIsLastWall(init);
      if hs[n].height < 1.0 {
        assert forall k :: 0 <= k < n ==> hs[k] == init[k];
        if ClosestWall(init).Finite? {
          var k :| 0 <= k < n && init[k].height >= 1.0 && init[k].distance == ClosestWall(init).d &&
            forall q :: k < q < n ==> init[q].height < 1.0;
          assert hs[k] == init[k];
        }
      }
    }
  }

  /** In a farthest-first list the closest wall is no farther than any wall hit. */
  lemma ClosestWallIsNearest(hs: seq<Hit>)
    requires FarthestFirstOrder(hs)
    ensures forall k :: 0 <= k < |hs| && hs[k].height >= 1.0 ==>
      ClosestWall(hs).Finite? && ClosestWall(hs).d <= hs[k].distance
  {
    ClosestWallIsLastWall(hs);
    if ClosestWall(hs).Finite? {
      var last :| 0 <= last < |hs| && hs[last].height >= 1.0 && hs[last].distance == ClosestWall(hs).d &&
        forall q :: last < q < |hs| ==> hs[q].height < 1.0;
      forall k | 0 <= k < |hs| && hs[k].height >= 1.0
        ensures ClosestWall(hs).d <= hs[k].distance
      {
        if k < last {
          assert hs[k].distance >= hs[last].distance;
        }
      }
    }
  }

  /** Every robot hit drawn is in the column's hits, is not a wall and is not behind the
      closest wall; every robot hit that is not behind it is drawn. */
  lemma OverlaidAreUnoccludedRobots(hs: seq<Hit>)
    ensures forall k :: 0 <= k < |Overlaid(hs)| ==>
      Overlaid(hs)[k] in hs && Overlaid(hs)[k].height < 1.0 && !Behind(Overlaid(hs)[k], ClosestWall(hs))
    ensures forall k :: 0 <= k < |hs| && hs[k].height < 1.0 && !Behind(hs[k], ClosestWall(hs)) ==>
      hs[k] in Overlaid(hs)
  {
    var rs := RobotHits(hs);
    var wall := ClosestWall(hs);
    KeepExactly(hs, OnRobot);
    KeepExactly(rs, (h: Hit) => !Behind(h, wall));
    forall k | 0 <= k < |Overlaid(hs)|
      ensures Overlaid(hs)[k] in hs
    {
      var j :| 0 <= j < |rs| && rs[j] == Overlaid(hs)[k];
    }
    forall k | 0 <= k < |hs| && hs[k].height < 1.0 && !Behind(hs[k], wall)
      ensures hs[k] in Overlaid(hs)
    {
      var j :| 0 <= j < |rs| && rs[j] == hs[k];
    }
  }

  /** As written, the loop breaks off at the first robot hit behind the closest wall. With the
      hits farthest first, a robot behind the wall in a column hides every robot in front. */
  lemma BreakHidesNearerRobot(robot: object)
    ensures
      var owner := OwnedBy(robot, "Robbie", 0.25);
      var far := Hit(owner, 0.25, 0.0, 50.0, 50.0, Grey(0.0), 0.0, 0.0);
      var near := Hit(owner, 0.25, 0.0, 10.0, 10.0, Grey(0.0), 0.0, 0.0);
      var wall := Hit(NoOwner, 1.0, 0.0, 30.0, 30.0, Grey(0.0), 0.0, 0.0);
      var column := [far, wall, near];
      && FarthestFirstOrder(column)
      && ClosestWall(column) == Finite(30.0)
      && UpToWall(RobotHits(column), ClosestWall(column)) == []
      && Overlaid(column) == [near]
  {
    var owner := OwnedBy(robot, "Robbie", 0.25);
    var far := Hit(owner, 0.25, 0.0, 50.0, 50.0, Grey(0.0), 0.0, 0.0);
    var near := Hit(owner, 0.25, 0.0, 10.0, 10.0, Grey(0.0), 0.0, 0.0);
    var wall := Hit(NoOwner, 1.0, 0.0, 30.0, 30.0, Grey(0.0), 0.0, 0.0);
    var column := [far, wall, near];
    RobotHitsStep([], far);
    assert [] + [far] == [far];
    RobotHitsStep([far], wall);
    assert [far] + [wall] == [far, wall];
    RobotHitsStep([far, wall], near);
    assert [far, wall] + [near] == column;
    assert RobotHits(column) == [far, near];
    assert [far, wall][..1] == [far];
    assert column[..2] == [far, wall];
    InFrontStep([], far, Finite(30.0));
    InFrontStep([far], near, Finite(30.0));
    assert [far] + [near] == [far, near];
  }

  /** The share of a wall column that is not wall lies between none and all of it. */
  lemma WallHighWithin(h: Hit, lens: Lens)
    requires lens.size != 0.0
    ensures 0.0 <= WallHigh(h, lens) <= lens.rows as real
  {
    var s := SizeScale(h.distance, lens);
    var r := lens.rows as real;
    assert 0.0 <= 1.0 - s <= 1.0;
    assert (1.0 - s) * r <= 1.0 * r;
  }

  /** Sky rows lie above the horizon and ground rows on or below it. */
  lemma SkyAboveGroundBelow(h: Hit, lens: Lens, j: int)
    requires lens.size != 0.0
    ensures BandOf(j, WallHigh(h, lens), lens.rows) == Sky ==> (j as real) < lens.rows as real / 2.0
    ensures BandOf(j, WallHigh(h, lens), lens.rows) == Ground ==> (j as real) >= lens.rows as real / 2.0
  {
    WallHighWithin(h, lens);
  }

  /** With a non-negative size fade a farther wall leaves more rows to sky and ground: every
      wall row of the farther wall's column is a wall row of the nearer one's. */
  lemma FartherWallsLookShorter(near: Hit, far: Hit, lens: Lens, j: int)
    requires lens.size > 0.0 && lens.sizeFade >= 0.0 && near.distance <= far.distance
    ensures WallHigh(near, lens) <= WallHigh(far, lens)
    ensures BandOf(j, WallHigh(far, lens), lens.rows) == WallBand ==>
            BandOf(j, WallHigh(near, lens), lens.rows) == WallBand
  {
    var xn := near.distance / lens.size * lens.sizeFade;
    var xf := far.distance / lens.size * lens.sizeFade;
    ScaledMonotone(near.distance, far.distance, lens.size, lens.sizeFade, xn, xf);
    var sn, sf := SizeScale(near.distance, lens), SizeScale(far.distance, lens);
    ClampMonotone(1.0 - xf, 1.0 - xn);
    assert sf <= sn;
    MulMonotone(1.0 - sn, 1.0 - sf, lens.rows as real, WallHigh(near, lens), WallHigh(far, lens));
  }

  lemma ClampMonotone(u: real, v: real)
    requires u <= v
    ensures Clamp01(u) <= Clamp01(v)
  {
  }

  /** `a * f <= b * f` when `a <= b` and `f >= 0`. */
  lemma MulMonotone(a: real, b: real, f: real, x: real, y: real)
    requires a <= b && f >= 0.0
    requires x == a * f && y == b * f
    ensures x <= y
  {
  }

  /** `a / c * f <= b / c * f` when `a <= b`, `c > 0` and `f >= 0`. */
  lemma ScaledMonotone(a: real, b: real, c: real, f: real, x: real, y: real)
    requires a <= b && c > 0.0 && f >= 0.0
    requires x == a / c * f && y == b / c * f
    ensures x <= y
  {
    assert a / c <= b / c;
  }

  /** A robot strip with its lift fits in the picture: `0 <= lift` and `lift + height <= rows`,
      so every row `rows - 1 - lift - j` for `0 <= j < height` is a row of the picture. */
  lemma StripFits(h: Hit, lens: Lens)
    requires lens.size != 0.0 && h.height < 1.0
    ensures 0 <= Lift(h, lens)
    ensures Lift(h, lens) + StripHeight(h, lens) <= lens.rows
  {
    var r := lens.rows as real;
    var sc, s := ColorScale(h.distance, lens), SizeScale(h.distance, lens);
    var dt := DistanceTo(h, lens);
    var up := StripRise(h, lens);
    var hh := h.height;
    assert up == hh * r / 2.0 * s;
    assert dt == r / 2.0 * (1.0 - sc);
    LiftWithin(r, sc, dt);
    StripWithin(r, hh, s, up);
    RoundsFit(lens.rows, dt, up);
  }

  /** Rounding two lengths that together stay under `rows` keeps them within `rows`. */
  lemma RoundsFit(rows: nat, dt: real, up: real)
    requires 0.0 <= dt
    requires rows == 0 ==> dt == 0.0 && up == 0.0
    requires rows > 0 ==> dt + up < rows as real
    ensures 0 <= RoundHalfEven(dt)
    ensures RoundHalfEven(dt) + RoundHalfEven(up) <= rows
  {
    if rows == 0 {
      assert RoundHalfEven(0.0) == 0;
    } else {
      assert (RoundHalfEven(dt) + RoundHalfEven(up)) as real <= dt + up + 1.0;
    }
  }

  lemma LiftWithin(r: real, sc: real, dt: real)
    requires r >= 0.0 && 0.0 <= sc <= 1.0
    requires dt == r / 2.0 * (1.0 - sc)
    ensures 0.0 <= dt <= r / 2.0
    ensures r == 0.0 ==> dt == 0.0
  {
    assert r / 2.0 * (1.0 - sc) <= r / 2.0 * 1.0;
  }

  lemma StripWithin(r: real, height: real, s: real, up: real)
    requires r >= 0.0 && height < 1.0 && 0.0 <= s <= 1.0
    requires up == height * r / 2.0 * s
    ensures r == 0.0 ==> up == 0.0
    ensures r > 0.0 ==> up < r / 2.0
  {
    var t := height * s;
    assert t < 1.0 by {
      if height > 0.0 {
        assert height * s <= height * 1.0;
      } else {
        assert height * s <= 0.0;
      }
    }
    var half := r / 2.0;
    assert up == t * half;
    if r > 0.0 {
      BelowOne(t, half, up);
    }
  }

  /** `a * f < f` when `a < 1` and `f > 0`. */
  lemma BelowOne(a: real, f: real, x: real)
    requires a < 1.0 && f > 0.0 && x == a * f
    ensures x < f
  {
    assert f - x == (1.0 - a) * f;
  }

  /** The recorded ranges stay non-empty however many robot hits are recorded. */
  lemma NoteOrdered(obs: map<string, Obstacle>, i: int, h: Hit, lens: Lens)
    requires lens.size != 0.0 && Ordered(obs)
    ensures Ordered(Note(obs, i, h, lens))
  {
  }

  lemma {:induction false} NoteAllOrdered(obs: map<string, Obstacle>, i: int, hs: seq<Hit>, lens: Lens)
    requires lens.size != 0.0 && Ordered(obs)
    ensures Ordered(NoteAll(obs, i, hs, lens))
  {
    if hs != [] {
      NoteAllOrdered(obs, i, hs[..|hs| - 1], lens);
      NoteOrdered(NoteAll(obs, i, hs[..|hs| - 1], lens), i, hs[|hs| - 1], lens);
    }
  }

  /** After the second pass no record has `min_x > max_x` or `min_y > max_y`, whether the pass
      stops at the first robot behind the wall or skips it. */
  lemma {:induction false} SurveyOrdered(cols: seq<seq<Hit>>, lens: Lens)
    requires lens.size != 0.0
    ensures Ordered(Survey(cols, lens))
    ensures Ordered(WrittenSurvey(cols, lens))
  {
    if cols != [] {
      var init, last := cols[..|cols| - 1], cols[|cols| - 1];
      SurveyOrdered(init, lens);
      NoteAllOrdered(Survey(init, lens), |cols| - 1, Overlaid(last), lens);
      NoteAllOrdered(WrittenSurvey(init, lens), |cols| - 1, Written(last), lens);
    }
  }

  // ----- the camera -----

  /** Every column holds an empty hit list. */
  predicate Cleared(hits: seq<seq<Hit>>, width: nat) {
    |hits| == width && forall i :: 0 <= i < |hits| ==> hits[i] == []
  }

  /** Column i of the picture shows col. */
  ghost predicate Shows(pic: array2<Color>, i: nat, col: seq<Color>)
    reads pic
  {
    && i < pic.Length0 && |col| == pic.Length1
    && forall b :: 0 <= b < pic.Length1 ==> pic[i, b] == col[b]
  }

  /** No column but column i has changed. */
  twostate predicate OthersKept(pic: array2<Color>, i: nat)
    reads pic
  {
    forall a, b :: 0 <= a < pic.Length0 && 0 <= b < pic.Length1 && a != i ==> pic[a, b] == old(pic[a, b])
  }

  /** The picture shows cols, column by column. */
  ghost predicate Depicts(pic: array2<Color>, cols: seq<seq<Color>>)
    reads pic
  {
    && |cols| == pic.Length0
    && forall a :: 0 <= a < |cols| ==> Shows(pic, a, cols[a])
  }

  class Camera {
    const typeName: string
    var time: real
    var robot: object?
    var width: nat
    var height: nat
    var colorsFade: real
    var sizeFade: real
    var reflectGround: bool
    var reflectSky: bool
    var angle: real
    var hits: seq<seq<Hit>>
    var obstacles: map<string, Obstacle>

    function Settings(): CameraSettings
      reads this
    {
      CameraSettings(width, height, colorsFade, sizeFade, reflectGround, reflectSky, angle)
    }

    /** What the drawing uses of the camera's settings. */
    function LensOf(kind: Kind, size: real): Lens
      reads this
    {
      Lens(height, colorsFade, sizeFade, reflectGround, reflectSky, size, kind)
    }

    /** A new camera. Its keyword configuration is accepted and ignored: every camera starts
        256 by 128 with a 60 degree field of view. */
    constructor (config: CameraConfig)
      ensures typeName == "camera" && time == 0.0 && robot == null
      ensures Settings() == CameraSettings(DefaultWidth, DefaultHeight, 0.5, 1.0, true, false, DegToRad(DefaultFov))
      ensures Cleared(hits, DefaultWidth) && obstacles == map[]
    {
      typeName := "camera";
      time := 0.0;
      robot := null;
      width, height := DefaultWidth, DefaultHeight;
      colorsFade := 0.5;
      sizeFade := 1.0;
      reflectGround := true;
      reflectSky := false;
      angle := 0.0;
      hits := [];
      obstacles := map[];
      new;
      SetFov(DefaultFov);
      Reset();
    }

    /** `reset`: one empty hit list per column. */
    method Reset()
      modifies this`hits
      ensures Cleared(hits, width)
    {
      hits := seq(width, _ => []);
    }

    /** `set_fov`: the angle is given in degrees and kept in radians; the columns are reset. */
    method SetFov(degrees: real)
      modifies this`angle, this`hits
      ensures angle == DegToRad(degrees) && Cleared(hits, width)
    {
      angle := degrees * Pi / 180.0;
      Reset();
    }

    /** `set_size`: a new picture size; the columns are reset to the new width. */
    method SetSize(w: nat, h: nat)
      modifies this`width, this`height, this`hits
      ensures width == w && height == h && Cleared(hits, w)
    {
      width := w;
      height := h;
      Reset();
    }

    /** `from_json`: present keys replace the settings. Only a new angle resets the columns;
        a new width alone leaves the old number of columns in place. */
    method FromJson(config: CameraConfig)
      modifies this`width, this`height, this`colorsFade, this`sizeFade, this`reflectGround, this`reflectSky
      modifies this`angle, this`hits
      ensures Settings() == ApplyConfig(old(Settings()), config)
      ensures config.angle.Some? ==> Cleared(hits, width)
      ensures config.angle.None? ==> hits == old(hits)
    {
      var s := ApplyConfig(Settings(), config);
      width, height := s.width, s.height;
      colorsFade, sizeFade := s.colorsFade, s.sizeFade;
      reflectGround, reflectSky := s.reflectGround, s.reflectSky;
      if config.angle.Some? {
        SetFov(config.angle.value);
      }
    }

    /** `to_json`: the class name and every setting, the angle back in degrees. */
    function ToJson(): (j: CameraJson)
      reads this
      ensures j.className == "Camera"
    {
      CameraJson("Camera", ToConfig(Settings()))
    }

    /** `_update`: the time stamp, then one ray per column. Writing column i fails once the
        column lists run out (a new width set by `from_json` without a reset), after the
        earlier columns have been replaced. */
    method Capture(pose: Pose, now: real, ss: seq<Surface>, me: object, m: Math) returns (ok: bool)
      modifies this`time, this`hits
      ensures time == now
      ensures ok == (width <= |old(hits)|)
      ensures Captured(hits, old(hits), if ok then width else |hits|, width, angle, pose, ss, me, m)
    {
      time := now;
      ghost var before := hits;
      var i := 0;
      while i < width
        invariant 0 <= i <= width && i <= |hits| && time == now
        invariant Captured(hits, before, i, width, angle, pose, ss, me, m)
      {
        if i >= |hits| {
          return false;
        }
        var column := CastRay(ss, me, pose.x, pose.y, ColumnDirection(i, width, angle, pose, m), CameraRange, m);
        CaptureOne(hits, before, i, width, angle, pose, ss, me, m, column);
        hits := hits[i := column];
        i := i + 1;
      }
      ok := true;
    }

    /** `find_closest_wall`: walks the hits from the nearest end. */
    method FindClosestWall(hs: seq<Hit>) returns (d: Extent)
      ensures d == ClosestWall(hs)
    {
      var k := |hs|;
      assert hs[..k] == hs;
      while k > 0
        invariant 0 <= k <= |hs|
        invariant ClosestWall(hs) == ClosestWall(hs[..k])
      {
        k := k - 1;
        assert hs[..k + 1][..k] == hs[..k];
        if hs[k].height >= 1.0 {
          return Finite(hs[k].distance);
        }
      }
      return Infinite;
    }

    /** `record_obstacle`: starts or widens the record of the robot called `name`. */
    method RecordObstacle(robot: object, name: string, x: int, y1: int, y2: int)
      modifies this`obstacles
      ensures obstacles == old(obstacles)[name := Recorded(if name in old(obstacles) then Some(old(obstacles)[name]) else None, robot, x, y1, y2)]
    {
      var start := if name in obstacles then Some(obstacles[name]) else None;
      obstacles := obstacles[name := Recorded(start, robot, x, y1, y2)];
    }

    /** The first pass over column i: sky, the nearest wall and ground, top to bottom. */
    method PaintWalls(pic: array2<Color>, i: nat, column: seq<Hit>, lens: Lens, ghost cols: seq<seq<Color>>)
      requires pic.Length1 == lens.rows && lens.size != 0.0
      requires Depicts(pic, cols) && i < |cols|
      modifies pic
      ensures Depicts(pic, cols[i := WallPass(column, lens, cols[i])])
    {
      var walls := WallHits(column);
      if |walls| == 0 {
        assert cols[i := cols[i]] == cols;
      } else {
        var hit := walls[|walls| - 1];
        ghost var want := WallColumn(hit, lens);
        var hcolor := Shade(hit, lens);
        var high := WallHigh(hit, lens);
        var j := 0;
        while j < lens.rows
          invariant 0 <= j <= lens.rows
          invariant forall b :: 0 <= b < j ==> pic[i, b] == want[b]
          invariant OthersKept(pic, i)
        {
          match BandOf(j, high, lens.rows) {
            case Sky => pic[i, j] := SkyColor(j, lens);
            case WallBand => pic[i, j] := hcolor;
            case Ground => pic[i, j] := GroundColor(j, lens);
          }
          j := j + 1;
        }
        forall a | 0 <= a < |cols| && a != i
          ensures Shows(pic, a, cols[a])
        {
          assert old(Shows(pic, a, cols[a]));
        }
      }
    }

    /** Paints robot hit h's strip over column i: rows `bottom - j` for `0 <= j < height`. */
    method PaintStrip(pic: array2<Color>, i: nat, h: Hit, lens: Lens)
      requires i < pic.Length0 && pic.Length1 == lens.rows && lens.size != 0.0 && h.height < 1.0
      modifies pic
      ensures forall b :: 0 <= b < pic.Length1 ==>
        pic[i, b] == if InStrip(b, h, lens) then Shade(h, lens) else old(pic[i, b])
      ensures forall a, b :: 0 <= a < pic.Length0 && 0 <= b < pic.Length1 && a != i ==> pic[a, b] == old(pic[a, b])
    {
      var hcolor := Shade(h, lens);
      var height := StripHeight(h, lens);
      var lift := Lift(h, lens);
      StripFits(h, lens);
      var j := 0;
      while j < height
        invariant 0 <= j <= IMax(height, 0)
        invariant forall b :: 0 <= b < pic.Length1 ==>
          pic[i, b] == if lens.rows - 1 - lift - j < b <= lens.rows - 1 - lift then hcolor else old(pic[i, b])
        invariant forall a, b :: 0 <= a < pic.Length0 && 0 <= b < pic.Length1 && a != i ==> pic[a, b] == old(pic[a, b])
      {
        pic[i, lens.rows - j - 1 - lift] := hcolor;
        j := j + 1;
      }
    }

    /** One robot hit of the second pass: record where it was seen, then paint its strip. */
    method Overlay(pic: array2<Color>, i: nat, hit: Hit, lens: Lens, ghost cols: seq<seq<Color>>)
      requires pic.Length1 == lens.rows && lens.size != 0.0 && OnRobot(hit)
      requires Depicts(pic, cols) && i < |cols|
      modifies pic, this`obstacles
      ensures Depicts(pic, cols[i := Paint(cols[i], hit, lens)])
      ensures obstacles == Note(old(obstacles), i, hit, lens)
    {
      var height := StripHeight(hit, lens);
      var lift := Lift(hit, lens);
      match hit.owner {
        case OwnedBy(robot, name, _) =>
          RecordObstacle(robot, name, i, lens.rows - 1 - lift, lens.rows - height - 1 - 1 - lift);
        case NoOwner =>
      }
      assert Shows(pic, i, cols[i]);
      PaintStrip(pic, i, hit, lens);
      forall a | 0 <= a < |cols| && a != i
        ensures Shows(pic, a, cols[a])
      {
        assert old(Shows(pic, a, cols[a]));
      }
    }

    /** The second pass over column i: each robot hit not behind the closest wall is recorded
        and painted, farthest first. */
    method PaintOverlays(pic: array2<Color>, i: nat, column: seq<Hit>, lens: Lens, ghost cols: seq<seq<Color>>)
      requires pic.Length1 == lens.rows && lens.size != 0.0
      requires Depicts(pic, cols) && i < |cols|
      modifies pic, this`obstacles
      ensures Depicts(pic, cols[i := PaintAll(cols[i], Overlaid(column), lens)])
      ensures obstacles == NoteAll(old(obstacles), i, Overlaid(column), lens)
    {
      var closest := FindClosestWall(column);
      var robots := RobotHits(column);
      RobotHitsAreRobots(column);
      ghost var col0 := cols[i];
      ghost var obs0 := obstacles;
      assert cols[i := PaintAll(col0, [], lens)] == cols;
      ghost var drawn: seq<Hit> := [];
      var k := 0;
      while k < |robots|
        invariant 0 <= k <= |robots|
        invariant drawn == InFront(robots[..k], closest)
        invariant Depicts(pic, cols[i := PaintAll(col0, drawn, lens)])
        invariant obstacles == NoteAll(obs0, i, drawn, lens)
      {
        var hit := robots[k];
        InFrontPrefix(robots, k, closest);
        ghost var next := InFront(robots[..k + 1], closest);
        if closest.Finite? && hit.distance > closest.d {
          // behind the closest wall: skipped
          assert next == drawn;
        } else {
          assert next == drawn + [hit];
          ghost var shown := cols[i := PaintAll(col0, drawn, lens)];
          PaintAllStep(col0, drawn, hit, lens);
          NoteAllStep(obs0, i, drawn, hit, lens);
          Overlay(pic, i, hit, lens, shown);
          assert shown[i := Paint(shown[i], hit, lens)] == cols[i := PaintAll(col0, next, lens)];
        }
        drawn := next;
        k := k + 1;
      }
      assert robots[..|robots|] == robots;
    }

    /** The first pass over every column. */
    method PaintAllWalls(pic: array2<Color>, cols: seq<seq<Hit>>, lens: Lens)
      requires pic.Length1 == lens.rows && lens.size != 0.0
      requires Depicts(pic, Blanks(|cols|, lens.rows))
      modifies pic
      ensures Depicts(pic, FirstPass(cols, lens))
    {
      ghost var shown := Blanks(|cols|, lens.rows);
      var i := 0;
      while i < |cols|
        invariant 0 <= i <= |cols| && |shown| == |cols|
        invariant Depicts(pic, shown)
        invariant forall a :: 0 <= a < i ==> shown[a] == WallPass(cols[a], lens, Blank(lens.rows))
        invariant forall a :: i <= a < |cols| ==> shown[a] == Blank(lens.rows)
      {
        PaintWalls(pic, i, cols[i], lens, shown);
        shown := shown[i := WallPass(cols[i], lens, shown[i])];
        i := i + 1;
      }
      assert shown == FirstPass(cols, lens);
    }

    /** The second pass over column i, whose first pass is drawn: the column is finished and
        the record grows by that column's robots. */
    method OverlayColumn(pic: array2<Color>, cols: seq<seq<Hit>>, i: nat, lens: Lens, ghost shown: seq<seq<Color>>)
      requires pic.Length1 == lens.rows && lens.size != 0.0
      requires i < |cols| == |shown| && Depicts(pic, shown)
      requires shown[i] == WallPass(cols[i], lens, Blank(lens.rows))
      requires obstacles == Survey(cols[..i], lens)
      modifies pic, this`obstacles
      ensures Depicts(pic, shown[i := ColumnImage(cols[i], lens)])
      ensures obstacles == Survey(cols[..i + 1], lens)
    {
      PaintOverlays(pic, i, cols[i], lens, shown);
      SurveyPrefix(cols, i, lens);
    }

    /** The second pass over every column, starting a new obstacle record. */
    method PaintAllOverlays(pic: array2<Color>, cols: seq<seq<Hit>>, lens: Lens)
      requires pic.Length1 == lens.rows && lens.size != 0.0
      requires Depicts(pic, FirstPass(cols, lens))
      modifies pic, this`obstacles
      ensures Depicts(pic, Image(cols, lens))
      ensures obstacles == Survey(cols, lens)
    {
      ghost var shown := FirstPass(cols, lens);
      obstacles := map[];
      var i := 0;
      while i < |cols|
        invariant 0 <= i <= |cols| && |shown| == |cols|
        invariant Depicts(pic, shown)
        invariant forall a :: 0 <= a < i ==> shown[a] == ColumnImage(cols[a], lens)
        invariant forall a :: i <= a < |cols| ==> shown[a] == WallPass(cols[a], lens, Blank(lens.rows))
        invariant obstacles == Survey(cols[..i], lens)
      {
        OverlayColumn(pic, cols, i, lens, shown);
        shown := shown[i := ColumnImage(cols[i], lens)];
        i := i + 1;
      }
      assert shown == Image(cols, lens);
      assert cols[..|cols|] == cols;
    }

    /** The two passes over every column of a new picture, from the columns' hits. */
    method Render(lens: Lens) returns (pic: array2<Color>)
      requires lens.size != 0.0 && lens.rows == height && width <= |hits|
      modifies this`obstacles
      ensures fresh(pic) && pic.Length0 == width && pic.Length1 == height
      ensures Depicts(pic, Image(hits[..width], lens))
      ensures obstacles == Survey(hits[..width], lens)
    {
      pic := new Color[width, height]((_, _) => Clear);
      var cols := hits[..width];
      assert Depicts(pic, Blanks(width, lens.rows));
      PaintAllWalls(pic, cols, lens);
      PaintAllOverlays(pic, cols, lens);
    }

    /** `take_picture`: the rays, then the picture; no picture when the rays fail. The
        distance scale `size` is a parameter. */
    method TakePicture(kindName: string, size: real, pose: Pose, now: real, ss: seq<Surface>, me: object, m: Math)
      returns (pic: Option<array2<Color>>)
      requires size != 0.0
      modifies this`time, this`hits, this`obstacles
      ensures time == now
      ensures pic.Some? <==> width <= |old(hits)|
      ensures Captured(hits, old(hits), if pic.Some? then width else |hits|, width, angle, pose, ss, me, m)
      ensures pic.Some? ==> fresh(pic.value) && pic.value.Length0 == width && pic.value.Length1 == height
      ensures pic.Some? ==> Depicts(pic.value, Image(hits[..width], LensOf(KindOf(kindName), size)))
      ensures pic.Some? ==> obstacles == Survey(hits[..width], LensOf(KindOf(kindName), size))
      ensures pic.None? ==> obstacles == old(obstacles)
    {
      var ok := Capture(pose, now, ss, me, m);
      if !ok {
        return None;
      }
      var p := Render(LensOf(KindOf(kindName), size));
      return Some(p);
    }
  }

  /** Loading what `to_json` wrote, into any camera, restores every setting. */
  lemma ToJsonLoads(camera: Camera, before: CameraSettings)
    ensures ApplyConfig(before, camera.ToJson().config) == camera.Settings()
  {
    JsonRoundTrip(before, camera.Settings());
  }
}
