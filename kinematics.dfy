/** The robot's motion: velocity ramps, the proposed pose, the square bounding box, the
    collision scan and the propose / test / commit-or-stall step, all on values. */
module Kinematics {
  import opened Utils
  import opened Numeric
  import opened Geometry
  import opened RayCast

  /** A pose: position in cm and heading in radians. */
  datatype Pose = Pose(x: real, y: real, direction: real)

  /** Velocities along x and y (cm per second) and of turning (radians per second); also used
      for the target velocities the drive commands set. */
  datatype Vel = Vel(vx: real, vy: real, va: real)

  /** The robot's speed limits and the seconds each velocity takes to reach its limit. */
  datatype Limits = Limits(vxMax: real, vyMax: real, vaMax: real,
                           vxRamp: real, vyRamp: real, vaRamp: real)

  /** The ramps are divided into the time step: none of them may be zero. */
  predicate RampsNonZero(lim: Limits) {
    lim.vxRamp != 0.0 && lim.vyRamp != 0.0 && lim.vaRamp != 0.0
  }

  /** The largest change of a velocity in one time step: `maxv / (ramp / time_step)`. */
  function MaxChange(maxv: real, ramp: real, timeStep: real): (dv: real)
    requires ramp != 0.0 && timeStep != 0.0
    ensures dv * ramp == maxv * timeStep
  {
    var spt := ramp / timeStep;
    assert spt * timeStep == ramp;
    maxv / spt
  }

  /** `_deltav`: the change from v towards the target tv, limited to dv either way. */
  function DeltaV(tv: real, v: real, maxv: real, ramp: real, timeStep: real): (r: real)
    requires ramp != 0.0 && timeStep != 0.0
    ensures var dv := MaxChange(maxv, ramp, timeStep);
      && r <= dv
      && (dv >= 0.0 ==> -dv <= r)
      && (-dv <= tv - v <= dv ==> r == tv - v)
      && (tv - v > dv ==> r == dv)
      && (tv - v < -dv && -dv <= dv ==> r == -dv)
  {
    var dv := MaxChange(maxv, ramp, timeStep);
    Min(Max(tv - v, -dv), dv)
  }

  function Abs(x: real): real { if x < 0.0 then -x else x }

  /** A ramped velocity never overshoots its target: it moves towards it by dv, or lands on it. */
  lemma RampNoOvershoot(tv: real, v: real, maxv: real, ramp: real, timeStep: real)
    requires ramp != 0.0 && timeStep != 0.0
    requires MaxChange(maxv, ramp, timeStep) >= 0.0
    ensures var nv := v + DeltaV(tv, v, maxv, ramp, timeStep);
      && (v <= tv ==> v <= nv <= tv)
      && (tv <= v ==> tv <= nv <= v)
      && Abs(tv - nv) == Max(Abs(tv - v) - MaxChange(maxv, ramp, timeStep), 0.0)
  {}

  /** One ramp step with change limit dv, as `step` applies it to each velocity. */
  function Approach(tv: real, v: real, dv: real): real {
    v + Min(Max(tv - v, -dv), dv)
  }

  /** The velocity after n steps towards a fixed target. */
  function ApproachN(tv: real, v: real, dv: real, n: nat): real {
    if n == 0 then v else Approach(tv, ApproachN(tv, v, dv, n - 1), dv)
  }

  /** One ramp step closes the gap to the target by dv, or closes it completely. */
  lemma ApproachStep(tv: real, w: real, dv: real)
    requires dv >= 0.0
    ensures Abs(tv - Approach(tv, w, dv)) == Max(Abs(tv - w) - dv, 0.0)
    ensures w <= tv ==> w <= Approach(tv, w, dv) <= tv
    ensures tv <= w ==> tv <= Approach(tv, w, dv) <= w
  {}

  /** How much of the gap n ramp steps of dv close at most: dv, n times over. */
  function Closed(n: nat, dv: real): real {
    if n == 0 then 0.0 else Closed(n - 1, dv) + dv
  }

  /** n steps of dv close n * dv. */
  lemma {:induction false} ClosedIsProduct(n: nat, dv: real)
    ensures Closed(n, dv) == n as real * dv
  {
    if n > 0 {
      ClosedIsProduct(n - 1, dv);
    }
  }

  /** After n steps towards a fixed target the gap is max(gap - Closed(n, dv), 0), reached
      from the side the velocity started on. */
  lemma {:induction false} ApproachClosesGap(tv: real, v: real, dv: real, n: nat)
    requires dv >= 0.0
    ensures Abs(tv - ApproachN(tv, v, dv, n)) == Max(Abs(tv - v) - Closed(n, dv), 0.0)
    ensures v <= tv ==> v <= ApproachN(tv, v, dv, n) <= tv
    ensures tv <= v ==> tv <= ApproachN(tv, v, dv, n) <= v
  {
    if n > 0 {
      ApproachClosesGap(tv, v, dv, n - 1);
      var w := ApproachN(tv, v, dv, n - 1);
      assert ApproachN(tv, v, dv, n) == Approach(tv, w, dv);
      ApproachStep(tv, w, dv);
    }
  }

  /** With a fixed target each step closes the gap by dv until the gap is gone: after n steps
      the gap is max(gap - n * dv, 0), so the target is reached and never passed. */
  lemma ApproachGap(tv: real, v: real, dv: real, n: nat)
    requires dv >= 0.0
    ensures Abs(tv - ApproachN(tv, v, dv, n)) == Max(Abs(tv - v) - n as real * dv, 0.0)
    ensures v <= tv ==> v <= ApproachN(tv, v, dv, n) <= tv
    ensures tv <= v ==> tv <= ApproachN(tv, v, dv, n) <= v
  {
    ApproachClosesGap(tv, v, dv, n);
    ClosedIsProduct(n, dv);
  }

  /** The velocity step of `step` is the shared ramp with dv = MaxChange. */
  lemma DeltaVIsApproach(tv: real, v: real, maxv: real, ramp: real, timeStep: real)
    requires ramp != 0.0 && timeStep != 0.0
    ensures v + DeltaV(tv, v, maxv, ramp, timeStep) == Approach(tv, v, MaxChange(maxv, ramp, timeStep))
  {}

  /** The three ramped velocities of one step. */
  function Ramp(v: Vel, target: Vel, lim: Limits, timeStep: real): (r: Vel)
    requires RampsNonZero(lim) && timeStep != 0.0
  {
    Vel(v.vx + DeltaV(target.vx, v.vx, lim.vxMax, lim.vxRamp, timeStep),
        v.vy + DeltaV(target.vy, v.vy, lim.vyMax, lim.vyRamp, timeStep),
        v.va + DeltaV(target.va, v.va, lim.vaMax, lim.vaRamp, timeStep))
  }

  /** The proposed pose: the heading turns by `va * time_step` first, then the position moves
      along the graphics-offset heading. As in the source, the vx part of the displacement is
      not multiplied by the time step while the vy part is. */
  function ProposePose(p: Pose, v: Vel, timeStep: real, m: Math): (r: Pose)
    ensures r.direction == p.direction - v.va * timeStep
    ensures v == Vel(0.0, 0.0, 0.0) ==> r == p
  {
    var offset := Pi / 2.0;
    var pdirection := p.direction - v.va * timeStep;
    var tvx := v.vx * Sin(-pdirection + offset, m) + v.vy * Cos(-pdirection + offset, m) * timeStep;
    var tvy := v.vx * Cos(-pdirection + offset, m) - v.vy * Sin(-pdirection + offset, m) * timeStep;
    Pose(p.x + tvx, p.y + tvy, pdirection)
  }

  /** Without turning, the time step scales the sideways (vy) displacement and leaves the
      forward (vx) displacement as it is: a forward speed moves the robot the same distance
      whatever the time step. */
  lemma TimeStepScalesOnlySideways(p: Pose, vx: real, vy: real, t: real, m: Math)
    ensures ProposePose(p, Vel(vx, 0.0, 0.0), t, m) == ProposePose(p, Vel(vx, 0.0, 0.0), 1.0, m)
    ensures var q := ProposePose(p, Vel(0.0, vy, 0.0), t, m);
            var u := ProposePose(p, Vel(0.0, vy, 0.0), 1.0, m);
            && q.x - p.x == t * (u.x - p.x) && q.y - p.y == t * (u.y - p.y)
            && q.direction == p.direction
  {
  }

  /** A point mounted on the robot at distance `dist` from its centre and at angle `dir` from
      its heading, in world coordinates (the heading carries the graphics offset pi/2). */
  function MountPoint(pose: Pose, dist: real, dir: real, m: Math): Point {
    RotateAround(pose.x, pose.y, dist, pose.direction + dir + Pi / 2.0, m)
  }

  /** The fixed half-diagonal of every robot's bounding square, in cm. */
  const BoxRadius: real := 10.0

  /** The four corners at `BoxRadius` from the pose, at headings direction + pi/4 + k * pi/2
      (`step` writes the same headings as direction + offset/2 + k * offset, offset = pi/2). */
  function BoxCorners(p: Pose, m: Math): (c: seq<Point>)
    ensures |c| == 4
    ensures forall k :: 0 <= k < 4 ==>
      c[k] == RotateAround(p.x, p.y, BoxRadius, p.direction + (Pi / 2.0) / 2.0 + k as real * (Pi / 2.0), m)
  {
    [RotateAround(p.x, p.y, BoxRadius, p.direction + Pi / 4.0 + 0.0 * (Pi / 2.0), m),
     RotateAround(p.x, p.y, BoxRadius, p.direction + Pi / 4.0 + 1.0 * (Pi / 2.0), m),
     RotateAround(p.x, p.y, BoxRadius, p.direction + Pi / 4.0 + 2.0 * (Pi / 2.0), m),
     RotateAround(p.x, p.y, BoxRadius, p.direction + Pi / 4.0 + 3.0 * (Pi / 2.0), m)]
  }

  /** `update_boundingbox`: the four lines through the corners, each ending where the next one
      starts, the last one closing on the first. */
  function BoxLines(c: seq<Point>): (ls: seq<Line>)
    requires |c| == 4
    ensures |ls| == 4 && ClosedLoop(ls)
    ensures forall k :: 0 <= k < 4 ==> ls[k].p1 == c[k]
  {
    Loop4(c[0], c[1], c[2], c[3])
  }

  /** The bounding box of a pose, as `init_boundingbox` computes it. */
  function BoxOf(p: Pose, m: Math): seq<Line> {
    BoxLines(BoxCorners(p, m))
  }

  /** Some edge of the box with the given corners crosses line l, under `intersect`. */
  predicate EdgeCrosses(c: seq<Point>, l: Line)
    requires |c| == 4
  {
    || Intersect(c[0], c[1], l.p1, l.p2)
    || Intersect(c[1], c[2], l.p1, l.p2)
    || Intersect(c[2], c[3], l.p1, l.p2)
    || Intersect(c[3], c[0], l.p1, l.p2)
  }

  /** Some line of the list crosses an edge of the box with corners c. */
  predicate CrossesAny(c: seq<Point>, ls: seq<Line>)
    requires |c| == 4
    decreases |ls|
  {
    |ls| > 0 && (CrossesAny(c, ls[..|ls| - 1]) || EdgeCrosses(c, ls[|ls| - 1]))
  }

  /** CrossesAny holds exactly when some line of the list crosses. */
  lemma {:induction false} CrossesAnyExists(c: seq<Point>, ls: seq<Line>)
    requires |c| == 4
    ensures CrossesAny(c, ls) <==> exists j :: 0 <= j < |ls| && EdgeCrosses(c, ls[j])
    decreases |ls|
  {
    if |ls| > 0 {
      var init := ls[..|ls| - 1];
      CrossesAnyExists(c, init);
      if exists j :: 0 <= j < |init| && EdgeCrosses(c, init[j]) {
        var j :| 0 <= j < |init| && EdgeCrosses(c, init[j]);
        assert ls[j] == init[j];
      }
      if exists j :: 0 <= j < |ls| && EdgeCrosses(c, ls[j]) {
        var j :| 0 <= j < |ls| && EdgeCrosses(c, ls[j]);
        if j < |init| { assert init[j] == ls[j]; }
      }
    }
  }

  /** Some line of a wall that `me` does not own crosses an edge of the box. */
  predicate Collides(ss: seq<Surface>, me: object, c: seq<Point>)
    requires |c| == 4
    decreases |ss|
  {
    && |ss| > 0
    && (|| Collides(ss[..|ss| - 1], me, c)
        || (!OwnedByMe(ss[|ss| - 1], me) && CrossesAny(c, ss[|ss| - 1].lines)))
  }

  /** Collides holds exactly when some line of some wall that `me` does not own crosses. */
  lemma {:induction false} CollidesExists(ss: seq<Surface>, me: object, c: seq<Point>)
    requires |c| == 4
    ensures Collides(ss, me, c) <==>
      exists k, j :: 0 <= k < |ss| && !OwnedByMe(ss[k], me) && 0 <= j < |ss[k].lines| &&
        EdgeCrosses(c, ss[k].lines[j])
    decreases |ss|
  {
    if |ss| > 0 {
      var init := ss[..|ss| - 1];
      var last := ss[|ss| - 1];
      CollidesExists(init, me, c);
      CrossesAnyExists(c, last.lines);
      if exists k, j :: 0 <= k < |init| && !OwnedByMe(init[k], me) && 0 <= j < |init[k].lines| &&
                        EdgeCrosses(c, init[k].lines[j]) {
        var k, j :| 0 <= k < |init| && !OwnedByMe(init[k], me) && 0 <= j < |init[k].lines| &&
                    EdgeCrosses(c, init[k].lines[j]);
        assert ss[k] == init[k];
      }
      if exists k, j :: 0 <= k < |ss| && !OwnedByMe(ss[k], me) && 0 <= j < |ss[k].lines| &&
                        EdgeCrosses(c, ss[k].lines[j]) {
        var k, j :| 0 <= k < |ss| && !OwnedByMe(ss[k], me) && 0 <= j < |ss[k].lines| &&
                    EdgeCrosses(c, ss[k].lines[j]);
        if k < |init| { assert init[k] == ss[k]; }
      }
    }
  }

  /** The collision scan of `step`: every wall but the robot's own, line by line; the first
      crossing line of a wall sets `stalled` and leaves that wall's remaining lines. */
  method ScanCollisions(ss: seq<Surface>, me: object, c: seq<Point>) returns (stalled: bool)
    requires |c| == 4
    ensures stalled == Collides(ss, me, c)
  {
    stalled := false;
    var i := 0;
    while i < |ss|
      invariant 0 <= i <= |ss|
      invariant stalled == Collides(ss[..i], me, c)
    {
      var wall := ss[i];
      assert ss[..i + 1][..i] == ss[..i];
      if OwnedByMe(wall, me) {
        // a robot does not collide with itself
        i := i + 1;
        continue;
      }
      var j := 0;
      ghost var before := stalled;
      while j < |wall.lines|
        invariant 0 <= j <= |wall.lines|
        invariant stalled == (before || CrossesAny(c, wall.lines[..j]))
      {
        var line := wall.lines[j];
        assert wall.lines[..j + 1][..j] == wall.lines[..j];
        if EdgeCrosses(c, line) {
          CrossesAnyPrefix(c, wall.lines, j + 1);
          stalled := true;
          break;
        }
        j := j + 1;
      }
      assert wall.lines[..|wall.lines|] == wall.lines;
      i := i + 1;
    }
    assert ss[..|ss|] == ss;
  }

  /** A crossing among the first n lines is a crossing of the list. */
  lemma {:induction false} CrossesAnyPrefix(c: seq<Point>, ls: seq<Line>, n: nat)
    requires |c| == 4 && n <= |ls|
    requires CrossesAny(c, ls[..n])
    ensures CrossesAny(c, ls)
    decreases |ls| - n
  {
    if n < |ls| {
      assert ls[..n + 1][..n] == ls[..n];
      CrossesAnyPrefix(c, ls, n + 1);
    } else {
      assert ls[..n] == ls;
    }
  }

  /** A point of the trace: a position and the heading there. */
  datatype TracePoint = TracePoint(point: Point, direction: real)

  /** Everything of a robot that `step` reads or writes. */
  datatype Kin = Kin(pose: Pose, vel: Vel, target: Vel, stalled: bool, box: seq<Line>,
                     trace: seq<TracePoint>)

  /** `step` on values: ramp the velocities, propose a pose, put the bounding box there, and
      commit the move unless the box crosses a line of another wall, in which case the pose is
      kept and the velocities drop to zero. Either way one trace point is appended. */
  ghost function StepKin(k: Kin, lim: Limits, ss: seq<Surface>, me: object, timeStep: real, m: Math): Kin
    requires RampsNonZero(lim) && timeStep != 0.0
  {
    var nv := Ramp(k.vel, k.target, lim, timeStep);
    var proposed := ProposePose(k.pose, nv, timeStep, m);
    var corners := BoxCorners(proposed, m);
    var stalled := Collides(ss, me, corners);
    var pose := if stalled then k.pose else proposed;
    var vel := if stalled then Vel(0.0, 0.0, 0.0) else nv;
    Kin(pose, vel, k.target, stalled, BoxLines(corners),
        k.trace + [TracePoint(Point(pose.x, pose.y), pose.direction)])
  }

  /** What one step does: the stall flag is the collision scan of the proposed box; a stalled
      robot keeps its pose and stops, a free one takes the proposed pose and the ramped
      velocities; the box is a closed loop at the proposed pose either way; the targets are
      kept and the trace grows by the point reached. */
  lemma StepKinFacts(k: Kin, lim: Limits, ss: seq<Surface>, me: object, timeStep: real, m: Math)
    requires RampsNonZero(lim) && timeStep != 0.0
    ensures var r := StepKin(k, lim, ss, me, timeStep, m);
            var nv := Ramp(k.vel, k.target, lim, timeStep);
            var proposed := ProposePose(k.pose, nv, timeStep, m);
            && r.stalled == Collides(ss, me, BoxCorners(proposed, m))
            && (r.stalled ==> r.pose == k.pose && r.vel == Vel(0.0, 0.0, 0.0))
            && (!r.stalled ==> r.pose == proposed && r.vel == nv)
            && r.box == BoxOf(proposed, m) && |r.box| == 4 && ClosedLoop(r.box)
            && r.target == k.target
            && |r.trace| == |k.trace| + 1 && r.trace[..|k.trace|] == k.trace
            && r.trace[|k.trace|] == TracePoint(Point(r.pose.x, r.pose.y), r.pose.direction)
  {}

  /** The stall flag of the previous step has no influence: `step` clears it before scanning. */
  lemma StepIgnoresOldStall(k: Kin, lim: Limits, ss: seq<Surface>, me: object, timeStep: real, m: Math)
    requires RampsNonZero(lim) && timeStep != 0.0
    ensures StepKin(k.(stalled := true), lim, ss, me, timeStep, m) ==
            StepKin(k.(stalled := false), lim, ss, me, timeStep, m)
  {}

  /** With no other walls around, nothing stops the robot. */
  lemma AloneNeverStalls(k: Kin, lim: Limits, ss: seq<Surface>, me: object, timeStep: real, m: Math)
    requires RampsNonZero(lim) && timeStep != 0.0
    requires forall i :: 0 <= i < |ss| ==> OwnedByMe(ss[i], me) || ss[i].lines == []
    ensures !StepKin(k, lim, ss, me, timeStep, m).stalled
  {
    CollidesExists(ss, me, BoxCorners(ProposePose(k.pose, Ramp(k.vel, k.target, lim, timeStep), timeStep, m), m));
  }

  // ----- the drive commands, on the target velocities -----

  /** `move`: translate and rotate (each meant in [-1, 1]) scale the x and turn limits. */
  function Move(t: Vel, translate: real, rotate: real, lim: Limits): (r: Vel)
    ensures r.vx == translate * lim.vxMax && r.va == rotate * lim.vaMax && r.vy == t.vy
  {
    t.(vx := translate * lim.vxMax, va := rotate * lim.vaMax)
  }

  /** `forward`: only the x target changes. */
  function Forward(t: Vel, translate: real, lim: Limits): (r: Vel)
    ensures r.vx == translate * lim.vxMax && r.vy == t.vy && r.va == t.va
  {
    t.(vx := translate * lim.vxMax)
  }

  /** `backward`: the x target for the negated amount. */
  function Backward(t: Vel, translate: real, lim: Limits): (r: Vel)
    ensures r.vx == -translate * lim.vxMax && r.vy == t.vy && r.va == t.va
  {
    t.(vx := -translate * lim.vxMax)
  }

  /** `reverse`: the x target changes sign. */
  function Reverse(t: Vel): (r: Vel)
    ensures r.vx == -t.vx && r.vy == t.vy && r.va == t.va
  {
    t.(vx := -t.vx)
  }

  /** `turn`: only the turn target changes. */
  function Turn(t: Vel, rotate: real, lim: Limits): (r: Vel)
    ensures r.va == rotate * lim.vaMax && r.vx == t.vx && r.vy == t.vy
  {
    t.(va := rotate * lim.vaMax)
  }

  /** `stop`: every target is zero. */
  function Stop(t: Vel): (r: Vel)
    ensures r == Vel(0.0, 0.0, 0.0)
  {
    Vel(0.0, 0.0, 0.0)
  }

  lemma DriveCommandRelations(t: Vel, a: real, b: real, lim: Limits)
    ensures Reverse(Reverse(t)) == t
    ensures Backward(t, a, lim) == Reverse(Forward(t, a, lim))
    ensures Move(t, a, b, lim) == Turn(Forward(t, a, lim), b, lim)
    ensures Forward(Forward(t, a, lim), b, lim) == Forward(t, b, lim)
  {}

  /** A stopped robot at rest stays at rest when its limits, ramps and time step are positive.
      (With a negative limit the clamp `min(max(0, -dv), dv)` yields dv itself, not zero.) */
  lemma StoppedStaysAtRest(lim: Limits, timeStep: real)
    requires lim.vxMax >= 0.0 && lim.vyMax >= 0.0 && lim.vaMax >= 0.0
    requires lim.vxRamp > 0.0 && lim.vyRamp > 0.0 && lim.vaRamp > 0.0 && timeStep > 0.0
    ensures Ramp(Vel(0.0, 0.0, 0.0), Stop(Vel(0.0, 0.0, 0.0)), lim, timeStep) == Vel(0.0, 0.0, 0.0)
  {
    NonNegativeChange(lim.vxMax, lim.vxRamp, timeStep);
    NonNegativeChange(lim.vyMax, lim.vyRamp, timeStep);
    NonNegativeChange(lim.vaMax, lim.vaRamp, timeStep);
  }

  lemma NonNegativeChange(maxv: real, ramp: real, timeStep: real)
    requires maxv >= 0.0 && ramp > 0.0 && timeStep > 0.0
    ensures MaxChange(maxv, ramp, timeStep) >= 0.0
  {
    assert maxv * timeStep >= 0.0;
  }
}
