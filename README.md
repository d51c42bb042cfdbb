# jyrobot core in Dafny

A model of the simulation core of jyrobot, a small Python robot simulator. The files are:

- `utils.dfy`: colours, points, lines and the RGBA picture buffer.
- `numeric.dfy`: the maths library, angle units and Python's `round`.
- `geometry.dfy`: orientation tests, segment intersection, line equations, distances and rotation, as in the geometry methods of `Robot`.
- `raycast.dfy`: `Robot.cast_ray`. A ray is intersected with every line of every wall except the caster's own, and the hits come back farthest first.
- `kinematics.dfy`: the velocity ramps (`_deltav`), the drive commands, the square bounding box and the propose / test / commit-or-stall motion step, all on values.
- `rangesensor.dfy`: the range sensor. It casts a cone of up to three rays and keeps the nearest hit.
- `lightsensor.dfy`: the light sensor. It sums brightness over squared distance for every bulb it can see.
- `camera.dfy`: the camera. It casts one ray per picture column and composes a picture in two passes: each column's nearest wall first, then the other robots. It also records where each robot shows.
- `simulation.dfy`: the `Robot` and `World` classes. It covers device lookup, the world's wall registry, adding robots, and the sequential `step` / `update` loops with `steps` and `seconds` on top.
- `wrappers.dfy`: `Option`.

## How the model works

- **Mutable objects are classes; the rest are datatypes.** Each object the source mutates in place is a `class` with the same fields: `Robot`, `World`, `RangeSensor`, `LightSensor`, `Camera` and `Picture`. Walls, hits, colours, poses and configurations are datatypes.
- **A robot's wall is its live bounding box.** `addRobot` registers a wall whose lines are the robot's own bounding lines, so each later move of the box is seen by every other robot. The model keeps this aliasing explicit: a robot's wall holds `Bounding(robot)`, and `Scene` reads the robot's current box whenever the walls are looked at.
- **`step` is specified in turn order.** The moving loop of `step` is proved against `Advance`. In `Advance` each robot, in list order, steps against the walls as the robots before it left them. The `update` loop has no such function: it is proved robot by robot, each keeping everything but its box, and failing exactly at a light sensor.
- **The maths library is a set of tables.** `math.sin`, `math.cos`, `math.sqrt` and `math.atan2` are a `Math` value of lookup tables passed as a parameter. The model never looks inside them, and an argument a table does not list reads as 0. So nothing proved depends on what the functions compute, only on calling them on the same arguments the source calls them on. `math.pi` is the literal double `3.141592653589793`.
- **Numbers are exact.** Floats are modelled as `real`: there is no rounding, overflow, infinity or NaN. `float("inf")` in `find_closest_wall` becomes the `Infinite` case of `Extent`.
- **Errors become results.** Where the source raises, the model returns `false` or `None`:
  - the world has no `bulbs`, so a light sensor's update fails;
  - `Robot(robotConfig)` in `reset` is a `TypeError`;
  - a camera column index runs out;
  - `setDistance` divides by a zero range.

  Where the source divides by a value that its callers set, the division is a precondition. These are listed below.
- **Where the camera's loop and its own comment differ.** The hits of a column come sorted farthest first (`jyrobot/robot.py:320-322`). The robot pass tests each robot hit against the closest wall, and the comment at `jyrobot/devices/cameras.py:214` names the case it leaves out: a robot "Behind this wall". But the loop leaves it out with `break`, and in farthest-first order that ends the pass at the first robot behind the wall, before any robot in front of it. The model states the loop as written (`Cameras.UpToWall`, `Cameras.Written`) and proves what it hides. The picture is then built from the pass that skips only the hidden robots (`Cameras.Overlaid`). See Findings.

## Model

| member | source | states |
|---|---|---|
| Utils.MakeColor | jyrobot/utils.py:145-158 | a missing green or blue takes the red value and a missing alpha is 255; given components are kept |
| Utils.GreyIsUniform | jyrobot/utils.py:145-158 | a one-argument colour is the grey with that level in all three channels and full alpha |
| Utils.Picture.constructor | jyrobot/utils.py:180-183 | keeps width and height; the buffer holds width * height * 4 zeroed components |
| Utils.Picture.Position | jyrobot/utils.py:185-186 | a pixel's offset is 4 * (y * width + x) |
| Utils.Picture.Set | jyrobot/utils.py:188-193 | writes red, green, blue and alpha at the pixel's four slots, changes no other slot, and `Get` then reads the red |
| Utils.Picture.Get | jyrobot/utils.py:195-196 | reads the component at the same offset `position` gives, the pixel's red |
| Utils.PositionsDisjoint | jyrobot/utils.py:185-186 | two different pixels inside the width own disjoint four-slot ranges |
| Numeric.Sqrt | jyrobot/robot.py:288-289 | the square root a distance takes is never negative |
| Numeric.DegreesRoundTrip | jyrobot/devices/rangesensors.py:49-67 | converting radians to degrees for `to_json` and back for `from_json` returns the angle |
| Numeric.RoundHalfEven | jyrobot/world.py:95 | Python's `round`: within one half of the argument, and even on a tie |
| Numeric.Clamp01 | jyrobot/devices/cameras.py:152-159 | `max(min(x, 1), 0)` lies in [0, 1]: it is x inside, 0 below and 1 above |
| Geometry.CcwIsPositiveOrientation | jyrobot/robot.py:233-235 | `ccw` holds exactly when the signed area of the triangle is positive |
| Geometry.OrientCyclic | jyrobot/robot.py:233-235 | the orientation is unchanged when the corners are rotated |
| Geometry.IntersectSymmetric | jyrobot/robot.py:237-241 | `intersect(A, B, C, D)` equals `intersect(C, D, A, B)` |
| Geometry.SameSideNoIntersect | jyrobot/robot.py:237-241 | if C and D lie strictly on the same side of line AB, the segments do not intersect |
| Geometry.ProperCrossingIntersects | jyrobot/robot.py:237-241 | segments that each strictly straddle the other's line intersect |
| Geometry.Coefs | jyrobot/robot.py:243-247 | both points satisfy the line equation, which is degenerate exactly when the points coincide |
| Geometry.IntersectCoefs | jyrobot/robot.py:249-258 | no point exactly when the determinant is zero; otherwise the point lies on both lines |
| Geometry.IntersectCoefsUnique | jyrobot/robot.py:249-258 | the point found is the only point on both lines |
| Geometry.CramerSolves | jyrobot/robot.py:249-258 | Cramer's quotients solve both line equations, and every common point equals them |
| Geometry.IntersectHit | jyrobot/robot.py:260-286 | a hit lies on both lines and inside both bounding boxes widened by 0.1, and the segments are not parallel |
| Geometry.IntersectHitMisses | jyrobot/robot.py:260-286 | with no hit, the segments are parallel or no common point of the lines lies in both widened boxes |
| Geometry.ParallelNeverHit | jyrobot/robot.py:260-286 | parallel segments never hit |
| Geometry.Distance | jyrobot/robot.py:288-289 | the distance is never negative |
| Geometry.DiagonalDistances | jyrobot/robot.py:288-289 | each diagonal neighbour of the origin lies at the square root of 2, the four cases of tests/test_utils.py |
| Geometry.DistanceSymmetric | jyrobot/robot.py:288-289 | the distance does not depend on the order of the points |
| Geometry.Loop4 | jyrobot/world.py:75-83 | four lines p1-p2, p2-p3, p3-p4, p4-p1: each ends where the next starts |
| Kinematics.MaxChange | jyrobot/robot.py:357-362 | the change per step `maxv / (ramp / time_step)`, as dv * ramp == maxv * time_step |
| Kinematics.DeltaV | jyrobot/robot.py:357-363 | the change is the gap to the target when that is within the limit, and the limit in the gap's direction otherwise |
| Kinematics.RampNoOvershoot | jyrobot/robot.py:357-375 | a ramped velocity moves towards the target without passing it, and closes the gap by the limit or to zero |
| Kinematics.ApproachStep | jyrobot/robot.py:357-363 | one clamped step closes the gap by dv or to zero, and stays between its start and the target |
| Kinematics.ApproachClosesGap | jyrobot/robot.py:365-375 | n ramp steps close the gap by n limits or to zero, never crossing the target |
| Kinematics.ApproachGap | jyrobot/robot.py:365-375 | the same in closed form: the gap after n steps is max(gap - n * dv, 0) |
| Kinematics.DeltaVIsApproach | jyrobot/robot.py:357-375 | the ramped velocity equals one clamped approach step with the ramp's limit |
| Kinematics.BoxLines | jyrobot/robot.py:336-355 | `update_boundingbox` gives four lines from the corners in order, closed into a loop |
| Kinematics.ProposePose | jyrobot/robot.py:377-389 | the proposed heading turns by the ramped turn speed times the time step, and with zero velocity the robot stays where it is |
| Kinematics.TimeStepScalesOnlySideways | jyrobot/robot.py:381-388 | as written, only the sideways term of the displacement is multiplied by the time step: a forward speed moves the robot the same distance whatever the step, a sideways one moves it the step times the distance of a unit step |
| Kinematics.BoxCorners | jyrobot/robot.py:330-333 | the four corners at distance 10 from the centre, at the heading plus pi/4 plus k times pi/2, which is also the form `step` writes them in (heading plus offset/2 plus k times offset, lines 393-396) |
| Kinematics.CrossesAnyExists | jyrobot/robot.py:405-419 | the line scan of one wall finds a crossing exactly when some line crosses an edge of the box |
| Kinematics.CollidesExists | jyrobot/robot.py:402-421 | the collision test holds exactly when some line of a wall not owned by the robot crosses an edge of the box |
| Kinematics.ScanCollisions | jyrobot/robot.py:400-421 | the loop with its `continue` and `break` computes exactly that collision test |
| Kinematics.StepKinFacts | jyrobot/robot.py:365-436 | the stall flag is the collision test of the proposed box. A stalled robot keeps its pose at zero velocity; a free one takes the proposed pose and ramped velocity. The box sits at the proposed pose either way, the targets are kept, and one trace point (the pose reached) is appended |
| Kinematics.StepIgnoresOldStall | jyrobot/robot.py:400 | the previous stall flag has no effect on the step |
| Kinematics.AloneNeverStalls | jyrobot/robot.py:400-421 | a robot whose only non-empty walls are its own never stalls |
| Kinematics.Move | jyrobot/robot.py:207-211 | the x and turn targets become the fractions of their maxima, and the y target is kept |
| Kinematics.Forward | jyrobot/robot.py:213-215 | the x target becomes the fraction of its maximum; the others are kept |
| Kinematics.Backward | jyrobot/robot.py:217-219 | the x target becomes the negated fraction of its maximum; the others are kept |
| Kinematics.Reverse | jyrobot/robot.py:221-222 | the x target is negated; the others are kept |
| Kinematics.Turn | jyrobot/robot.py:224-226 | the turn target becomes the fraction of its maximum; the others are kept |
| Kinematics.Stop | jyrobot/robot.py:228-231 | all targets become zero |
| Kinematics.DriveCommandRelations | jyrobot/robot.py:207-226 | reverse twice is the identity; backward is reverse of forward; move is turn after forward; a second forward overrides the first |
| Kinematics.StoppedStaysAtRest | jyrobot/robot.py:228-231 | a robot at rest with zero targets ramps to zero velocity |
| RayCast.LineHit | jyrobot/robot.py:307-318 | a line gives a hit exactly when `intersect_hit` finds a point. The hit carries that point, the wall's owner and colour, height 1.0 (or the owning robot's height), the distance from the ray start, and the start itself |
| RayCast.HitsOnWall | jyrobot/robot.py:307-318 | the inner loop collects the hits of that wall's lines in line order |
| RayCast.CastRay | jyrobot/robot.py:297-323 | returns `Cast`: the hits of every line of every wall the caster does not own, sorted farthest first (whose properties the lemmas below state) |
| RayCast.InsertOrdered | jyrobot/robot.py:320-322 | inserting into a farthest-first list keeps it farthest first; the new hit leads only when it is strictly farther |
| RayCast.InsertKeepsHits | jyrobot/robot.py:320-322 | insertion adds the hit, each hit as often as before |
| RayCast.FarthestFirstFacts | jyrobot/robot.py:320-322 | the sort returns a farthest-first permutation of its input |
| RayCast.LineHitsFrom | jyrobot/robot.py:307-318 | every hit on a wall comes from one of that wall's lines |
| RayCast.RawHitsFrom | jyrobot/robot.py:303-318 | every raw hit comes from a line of a wall the caster does not own |
| RayCast.LineHitsAtMostOneEach | jyrobot/robot.py:307-318 | a wall gives at most one hit per line |
| RayCast.RawHitsAtMostOneEach | jyrobot/robot.py:303-318 | there are at most as many raw hits as lines on the other walls |
| RayCast.CastIsSortedPermutation | jyrobot/robot.py:297-323 | the result is the raw hits, each as often as found, farthest first |
| RayCast.CastHitsComeFromOtherWalls | jyrobot/robot.py:303-306 | every hit comes from a wall line, never from a wall the caster owns |
| RayCast.CastDistancesNonNegative | jyrobot/robot.py:312 | every hit's distance is non-negative |
| RayCast.CastAtMostOneHitPerLine | jyrobot/robot.py:303-318 | no more hits than lines on the other walls |
| RayCast.DegenerateRayLineHits | jyrobot/robot.py:307-318 | a ray whose ends coincide hits no line of a wall |
| RayCast.ZeroRangeHitsNothing | jyrobot/robot.py:297-323 | a ray of length zero hits nothing |
| RayCast.LastIsNearest | jyrobot/robot.py:320-322 | the last hit is at least as near as every other |
| RangeSensors.Arange | jyrobot/devices/rangesensors.py:16-20 | the generator yields the progression from start by step, as many terms as stay at or below stop |
| RangeSensors.ArangeMeaning | jyrobot/devices/rangesensors.py:16-20 | every yielded value is start + k * step and at most stop, and the next one would pass stop |
| RangeSensors.ArangeOneToFive | tests/test_utils.py:23-24 | `arange(1, 5, 1)` yields 1, 2, 3, 4, 5 |
| RangeSensors.ConeIncrements | jyrobot/devices/rangesensors.py:90-91 | `arange(-w/2, w/2, w/2)` is exactly -w/2, 0, w/2 for a positive width and empty for a negative one |
| RangeSensors.ConeOffsets | jyrobot/devices/rangesensors.py:90-112 | three rays for a positive width, none for a negative one, one straight ray for zero |
| RangeSensors.ApplyConfig | jyrobot/devices/rangesensors.py:49-59 | present keys replace the settings, with direction and width converted from degrees; absent keys keep them |
| RangeSensors.JsonRoundTrip | jyrobot/devices/rangesensors.py:49-69 | loading what `to_json` writes restores every setting |
| RangeSensors.ToJsonLoads | jyrobot/devices/rangesensors.py:49-69 | a sensor's own `to_json`, loaded into any sensor, gives back its settings |
| RangeSensors.Closer | jyrobot/devices/rangesensors.py:98-105 | one ray lowers the distance to its last (nearest) hit when that is closer, and otherwise keeps it |
| RangeSensors.RayLists | jyrobot/devices/rangesensors.py:90-97 | one hit list per cone offset |
| RangeSensors.NearestIsLowerBound | jyrobot/devices/rangesensors.py:89-118 | the result is at most the range and at most every ray's nearest hit |
| RangeSensors.NearestIsAttained | jyrobot/devices/rangesensors.py:89-118 | the result is the range or some ray's nearest hit |
| RangeSensors.NoHitsKeepsDistance | jyrobot/devices/rangesensors.py:89-118 | with no hits, the distance stays at the range |
| RangeSensors.AfterSetDistance | jyrobot/devices/rangesensors.py:153-155 | `setDistance` keeps the distance and sets reading = distance / max |
| RangeSensors.AfterSetReading | jyrobot/devices/rangesensors.py:157-159 | `setReading` keeps the reading and sets distance = reading * max |
| RangeSensors.SettersInverse | jyrobot/devices/rangesensors.py:153-159 | the setters agree: setting the distance that `setReading` produced gives back the same reading and distance, and the other way round |
| RangeSensors.SensedWithinRange | jyrobot/devices/rangesensors.py:74-118 | the reported distance lies between 0 and the range |
| RangeSensors.NothingInSight | jyrobot/devices/rangesensors.py:89-118 | when no ray hits, the distance is the range |
| RangeSensors.ZeroRangeSeesNothing | jyrobot/devices/rangesensors.py:89-118 | a sensor with range 0 reports 0 |
| RangeSensors.RangeSensor.constructor | jyrobot/devices/rangesensors.py:31-40 | the defaults with the configuration applied, reading 1.0 and distance at the range |
| RangeSensors.RangeSensor.FromJson | jyrobot/devices/rangesensors.py:49-59 | the settings become `ApplyConfig` of the old ones, and the distance follows the reading |
| RangeSensors.RangeSensor.ToJson | jyrobot/devices/rangesensors.py:61-69 | the device type is "RangeSensor" |
| RangeSensors.RangeSensor.SetDistance | jyrobot/devices/rangesensors.py:153-155 | fails exactly when the range is zero; otherwise the reading becomes distance / max |
| RangeSensors.RangeSensor.SetReading | jyrobot/devices/rangesensors.py:157-159 | the distance becomes reading * max |
| RangeSensors.RangeSensor.Offsets | jyrobot/devices/rangesensors.py:90-112 | yields the cone's offsets for the sensor's width |
| RangeSensors.RangeSensor.CastAt | jyrobot/devices/rangesensors.py:91-105 | one ray's cast lowers the distance as `Closer` says and keeps reading and distance in step |
| RangeSensors.RangeSensor.LowerTo | jyrobot/devices/rangesensors.py:98-105 | the distance becomes `Closer` of the old one and the hits |
| RangeSensors.RangeSensor.Update | jyrobot/devices/rangesensors.py:74-118 | the distance becomes the nearest hit over the cone. When the distance equals the range, the reading is 1.0; always distance == reading * max, and with a positive range the reading lies in [0, 1], the fraction of the range the distance is |
| LightSensors.HiddenBulbAddsNothing | jyrobot/devices/lightsensors.py:79-81 | a bulb with something in between adds nothing |
| LightSensors.VisibleBulbAdds | jyrobot/devices/lightsensors.py:79-81 | a visible bulb adds brightness * 1000 / distance squared |
| LightSensors.BulbAtSensorFails | jyrobot/devices/lightsensors.py:68-81 | a bulb at the sensor's own point is visible and makes the sum fail, dividing by zero |
| LightSensors.FailureSticks | jyrobot/devices/lightsensors.py:58-84 | once the sum has failed, later bulbs change nothing |
| LightSensors.LightNonNegative | jyrobot/devices/lightsensors.py:58-81 | with non-negative brightnesses the reading is non-negative |
| LightSensors.NearerIsBrighter | jyrobot/devices/lightsensors.py:81 | of two equally bright visible bulbs, the nearer one gives the higher reading |
| LightSensors.Look | jyrobot/devices/lightsensors.py:68-70 | computes the bulb's brightness, distance, and whether the ray to it is blocked |
| LightSensors.Shine | jyrobot/devices/lightsensors.py:68-81 | one bulb's turn in the loop: its sight and its effect on the running sum |
| LightSensors.LightSensor.constructor | jyrobot/devices/lightsensors.py:18-37 | reading 0, type "light", the configured position or the origin, with distance and angle from the centre cached |
| LightSensors.LightSensor.Initialize | jyrobot/devices/lightsensors.py:23-30 | zero reading, position at the origin, cached distance and angle to match |
| LightSensors.LightSensor.FromJson | jyrobot/devices/lightsensors.py:32-37 | a given position replaces the old one and refreshes the cache; otherwise nothing changes |
| LightSensors.LightSensor.ToJson | jyrobot/devices/lightsensors.py:39-44 | the class name and the position |
| LightSensors.LightSensor.Update | jyrobot/devices/lightsensors.py:49-84 | with no bulb list, it fails at reading 0. Otherwise the reading and success are the bulb sum from the sensor's point |
| Cameras.ApplyConfig | jyrobot/devices/cameras.py:49-64 | present keys replace the settings, with the angle converted from degrees; absent keys keep them |
| Cameras.JsonRoundTrip | jyrobot/devices/cameras.py:49-76 | loading what `to_json` writes restores every setting |
| Cameras.ToJsonLoads | jyrobot/devices/cameras.py:49-76 | a camera's own `to_json`, loaded into any camera, gives back its settings |
| Cameras.KindOf | jyrobot/devices/cameras.py:160-172 | "color" and "depth" select their branches, and any other name selects grey |
| Cameras.KeepExactly | jyrobot/devices/cameras.py:145 | the list comprehension keeps exactly the hits that pass its test |
| Cameras.RobotHitsAreRobots | jyrobot/devices/cameras.py:211 | the second pass sees only hits lower than a wall |
| Cameras.ClosestWallIsLastWall | jyrobot/devices/cameras.py:121-126 | infinite exactly when no hit is wall-high; otherwise the distance of the last wall-high hit |
| Cameras.ClosestWallIsNearest | jyrobot/devices/cameras.py:121-126 | on a farthest-first list, the result is no farther than any wall-high hit |
| Cameras.WallColumn | jyrobot/devices/cameras.py:153-205 | one colour per picture row for a wall hit (what each row shows is `Cameras.WallColumnRows`) |
| Cameras.WallColumnRows | jyrobot/devices/cameras.py:153-205 | each row of a wall column is the wall's shade, or the sky colour above the horizon, or the ground colour below it |
| Cameras.NearestWallHit | jyrobot/devices/cameras.py:143-147 | `hits[-1]` of the wall-high hits is a wall-high hit of the column, and on a farthest-first column the nearest one |
| Cameras.WallPass | jyrobot/devices/cameras.py:143-205 | the first pass keeps the column as tall as the picture (which hit it draws is `Cameras.WallPassDrawsNearestWall`) |
| Cameras.WallPassDrawsNearestWall | jyrobot/devices/cameras.py:143-205 | a column with no wall-high hit is left as it was; otherwise it is redrawn as the wall column of a wall-high hit of the column, the nearest one on a farthest-first column |
| Cameras.Overlaid | jyrobot/devices/cameras.py:209-215 | the corrected robot pass takes at most the column's hits (which ones is `Cameras.OverlaidAreUnoccludedRobots`) |
| Cameras.Written | jyrobot/devices/cameras.py:209-215 | the robot pass as written takes at most the column's hits (how it relates to the corrected one is `Cameras.WrittenIsPrefixOfOverlaid`) |
| Cameras.UpToWall | jyrobot/devices/cameras.py:209-215 | the loop as written keeps the longest prefix of the robot hits with no hit behind the wall, and the hit that stops it is behind the wall |
| Cameras.UpToWallIsPrefix | jyrobot/devices/cameras.py:209-215 | the loop as written keeps a prefix of the hits not behind the wall, and all of them exactly when no hit behind the wall comes before one in front of it |
| Cameras.WrittenIsPrefixOfOverlaid | jyrobot/devices/cameras.py:209-215 | on every column the robots the loop as written paints are a prefix of the corrected pass's, equal to them exactly when no robot behind the wall precedes one in front (see Findings) |
| Cameras.PaintAllCover | jyrobot/devices/cameras.py:216-253 | a painted row shows the shade of the last robot whose strip covers it (`LastCover`), or the colour beneath when no strip does |
| Cameras.PaintAllRows | jyrobot/devices/cameras.py:216-253 | after painting robot strips in order, each row shows the shade of the last strip covering it, or the colour it had when none does |
| Cameras.ColumnImage | jyrobot/devices/cameras.py:143-253 | a finished column is as tall as the picture (what each row shows is `Cameras.ColumnImageRows`) |
| Cameras.ColumnImageRows | jyrobot/devices/cameras.py:143-253 | each row of a finished column is the last unoccluded robot strip covering it, or the first pass's colour when none does |
| Cameras.FirstPass | jyrobot/devices/cameras.py:143-205 | the picture after the first pass: one column per ray, each as tall as the picture |
| Cameras.Image | jyrobot/devices/cameras.py:142-253 | one column per ray, each as tall as the picture |
| Cameras.Survey | jyrobot/devices/cameras.py:207-248 | the second pass records a robot exactly when some column shows that robot in front of its closest wall |
| Cameras.WrittenSurvey | jyrobot/devices/cameras.py:207-248 | the records the loop as written makes: a robot is recorded exactly when some column's pass as written, which stops at the first robot behind the wall, reaches it |
| Cameras.OverlaidAreUnoccludedRobots | jyrobot/devices/cameras.py:209-215 | the corrected second pass paints exactly the robot hits not behind the closest wall, in order (see Findings) |
| Cameras.BreakHidesNearerRobot | jyrobot/devices/cameras.py:209-215 | the loop as written, with its `break`, paints nothing for a column where a robot behind the wall comes before one in front (see Findings) |
| Cameras.WallHighWithin | jyrobot/devices/cameras.py:153-174 | the rows a wall column gives to sky and ground lie between 0 and the picture height |
| Cameras.SkyAboveGroundBelow | jyrobot/devices/cameras.py:178-205 | sky rows lie above the horizon and ground rows below it |
| Cameras.FartherWallsLookShorter | jyrobot/devices/cameras.py:153-192 | with non-negative fading, a nearer wall leaves less sky and ground, and covers every row a farther one covers |
| Cameras.StripFits | jyrobot/devices/cameras.py:224-253 | a robot's strip lies inside the picture's rows |
| Cameras.Recorded | jyrobot/devices/cameras.py:283-303 | a first record spans the given column and rows; later ones widen the ranges to include them |
| Cameras.NoteOrdered | jyrobot/devices/cameras.py:243-248 | recording one robot hit keeps every record's minimum at or below its maximum |
| Cameras.NoteAllOrdered | jyrobot/devices/cameras.py:243-248 | the same for all robot hits of a column |
| Cameras.SurveyOrdered | jyrobot/devices/cameras.py:207-248 | every record the whole second pass makes has its minimum at or below its maximum, for the pass as written (`WrittenSurvey`, stopping at the first robot behind the wall) and for the corrected one |
| Cameras.Camera.constructor | jyrobot/devices/cameras.py:21-32 | ignores its configuration: type "camera", time 0, 256 by 128, fades 0.5 and 1.0, ground reflected, sky not, a 60 degree field in radians, one empty hit list per column |
| Cameras.Camera.Reset | jyrobot/devices/cameras.py:78-79 | one empty hit list per column |
| Cameras.Camera.SetFov | jyrobot/devices/cameras.py:84-90 | the angle in radians, and the columns reset |
| Cameras.Camera.SetSize | jyrobot/devices/cameras.py:92-95 | the new size, and the columns reset to the new width |
| Cameras.Camera.FromJson | jyrobot/devices/cameras.py:49-64 | the settings become `ApplyConfig` of the old ones; only a new angle resets the columns |
| Cameras.Camera.ToJson | jyrobot/devices/cameras.py:66-76 | the class name is "Camera" |
| Cameras.Camera.Capture | jyrobot/devices/cameras.py:104-114 | time stamped; it fails exactly when there are fewer columns than the width. The columns done hold their rays' hits and the others are kept |
| Cameras.Camera.FindClosestWall | jyrobot/devices/cameras.py:121-126 | returns `ClosestWall` of the hits |
| Cameras.Camera.RecordObstacle | jyrobot/devices/cameras.py:283-303 | only the robot's own record changes, as `Recorded` says |
| Cameras.Camera.PaintWalls | jyrobot/devices/cameras.py:144-205 | column i of the picture becomes the first pass of its hits, and no other column changes |
| Cameras.Camera.PaintStrip | jyrobot/devices/cameras.py:249-253 | the strip's rows of column i take the hit's shade; nothing else changes |
| Cameras.Camera.Overlay | jyrobot/devices/cameras.py:216-253 | one robot hit painted over column i and recorded |
| Cameras.Camera.PaintOverlays | jyrobot/devices/cameras.py:209-253 | all unoccluded robot hits of a column are painted in order and recorded |
| Cameras.Camera.PaintAllWalls | jyrobot/devices/cameras.py:143-205 | the picture after the first pass is `FirstPass` of the columns |
| Cameras.Camera.PaintAllOverlays | jyrobot/devices/cameras.py:207-253 | the finished picture is `Image` of the columns, and the records are `Survey` |
| Cameras.Camera.OverlayColumn | jyrobot/devices/cameras.py:209-253 | one column of the second pass: the column becomes its `ColumnImage`, and the records become `Survey` of the columns up to and including it |
| Cameras.Camera.Render | jyrobot/devices/cameras.py:137-254 | a fresh picture of the camera's size showing `Image` of the columns, with the records of `Survey` |
| Cameras.Camera.TakePicture | jyrobot/devices/cameras.py:128-255 | captures the columns, then renders. When the columns run out it returns no picture and leaves the records alone |
| Simulation.Lower | jyrobot/robot.py:29 | lower-cases each character and keeps the length |
| Simulation.LowerTwice | jyrobot/robot.py:29 | lower-casing twice is lower-casing once |
| Simulation.FirstOfTypeIsFirst | jyrobot/robot.py:27-30 | lookup by name never fails with an index error. It finds a device exactly when some device's type matches, ignoring case, and returns the first match |
| Simulation.Lookup | jyrobot/robot.py:24-31 | an index finds a device exactly when it lies in [-n, n), counting from the end when negative, and is an index error otherwise. A name finds the first device of that type. Any other key gives nothing |
| Simulation.LookupIgnoresCase | jyrobot/robot.py:27-30 | looking up a lower-cased name is looking up the name |
| Simulation.FirstOfTypeIgnoresCase | jyrobot/robot.py:27-30 | the name scan does not depend on the case of the name |
| Simulation.SceneAt | jyrobot/world.py:85-91 | the walls are seen in registry order, each with its current lines |
| Simulation.RobotWallShowsBox | jyrobot/world.py:88-91 | the wall `addRobot` registered always shows the robot's current box and is owned by it |
| Simulation.DefaultRobotRests | jyrobot/robot.py:65-104 | an unconfigured robot rests at the origin with its box around it and can step, as tests/test_robot.py expects |
| Simulation.ConfiguredBoxLags | jyrobot/robot.py:104-143 | the box is built before `from_json` moves the pose, so it stays at the origin until the next update |
| Simulation.Robot.constructor | jyrobot/robot.py:65-156 | name, colour, height, limits and state are the defaults with the configuration applied; no devices and no world |
| Simulation.Robot.Move | jyrobot/robot.py:207-211 | the targets become `Kinematics.Move` of the old ones |
| Simulation.Robot.Forward | jyrobot/robot.py:213-215 | the targets become `Kinematics.Forward` of the old ones |
| Simulation.Robot.Backward | jyrobot/robot.py:217-219 | the targets become `Kinematics.Backward` of the old ones |
| Simulation.Robot.Reverse | jyrobot/robot.py:221-222 | the targets become `Kinematics.Reverse` of the old ones |
| Simulation.Robot.Turn | jyrobot/robot.py:224-226 | the targets become `Kinematics.Turn` of the old ones |
| Simulation.Robot.Stop | jyrobot/robot.py:228-231 | all targets zero |
| Simulation.Robot.UpdateBoundingBox | jyrobot/robot.py:336-355 | the box becomes the closed loop through the four points |
| Simulation.Robot.InitBoundingBox | jyrobot/robot.py:325-334 | the box is put back on the current pose |
| Simulation.Robot.Step | jyrobot/robot.py:365-436 | the new state is `StepKin` of the old one, whose behaviour `Kinematics.StepKinFacts` states |
| Simulation.Robot.AddDevice | jyrobot/robot.py:174-179 | a device already present is refused and left alone; a new one is appended and pointed back at the robot |
| Simulation.Robot.Update | jyrobot/robot.py:442-448 | the box is back on the pose; it succeeds exactly when no device is a light sensor, and then every range sensor holds its reading |
| Simulation.Robot.UpdateDevices | jyrobot/robot.py:445-447 | the device loop succeeds exactly when no device is a light sensor, each range sensor then holding its reading |
| Simulation.Robot.UpdateDevice | jyrobot/robot.py:446-447 | one device's turn: it goes on exactly when the device is not a light sensor, and then the range sensors up to and including it hold their readings |
| Simulation.BoxWall | jyrobot/world.py:75-83 | an unowned wall of the given colour, four lines closed into a loop from (x1, y1) through (x2, y2) |
| Simulation.BoundaryEncloses | jyrobot/world.py:45-54 | four unowned one-line walls that together close the rectangle from (0, 0) to (w, h) |
| Simulation.SecondSeesFirstMove | jyrobot/world.py:107-110 | the second robot steps against the box the first robot has just moved to |
| Simulation.AdvanceKeepsOthers | jyrobot/world.py:109-110 | robots not in the list keep their state |
| Simulation.Advance | jyrobot/world.py:109-110 | the loop over the robots keeps the set of robots it has states for |
| Simulation.TurnOf | jyrobot/world.py:109-110 | a robot's turn ends with a trace point at the pose it has reached |
| Simulation.AdvanceKeepsTargets | jyrobot/world.py:109-110 | stepping the robots never changes where any of them is heading for |
| Simulation.World.constructor | jyrobot/world.py:25-31 | time 0, step 0.1, 500 by 250 unless configured, the box walls then the boundary, no robots |
| Simulation.World.Reset | jyrobot/world.py:33-58 | clears the world, applies the settings, adds the boundary after the boxes, and fails exactly when robots are configured |
| Simulation.World.SetConfig | jyrobot/world.py:60-70 | the size (500 by 250 unless given) and one box wall per box, appended in order |
| Simulation.World.AddBox | jyrobot/world.py:75-83 | appends the box's wall |
| Simulation.World.AddWall | jyrobot/world.py:85-86 | appends the wall |
| Simulation.World.AddRobot | jyrobot/world.py:88-91 | appends the robot, points it at the world, and registers its live box as a wall it owns |
| Simulation.World.MoveRobots | jyrobot/world.py:109-110 | the robots end as `Advance` says: each in turn steps against the walls as the robots before it left them |
| Simulation.World.StepRobot | jyrobot/world.py:109-110 | one more robot's turn of that loop |
| Simulation.World.Update | jyrobot/world.py:114-117 | fails exactly when some robot carries a light sensor, and changes nothing of the robots but their boxes |
| Simulation.World.UpdateRobot | jyrobot/world.py:116-117 | one robot's update: its box back on its pose, failing exactly at a light sensor, and then the whole update fails; no other robot state changes |
| Simulation.World.Step | jyrobot/world.py:107-112 | the clock advances by the time step and the robots end in the state `Advance` gives them, boxes aside. It fails exactly when a light sensor is present |
| Simulation.World.Tick | jyrobot/world.py:107-112 | the clock advances by the given time step, or by the world's own when none is given, and it fails exactly when a light sensor is present |
| Simulation.World.Observe | jyrobot/world.py:100-103 | one turn of `steps`: a step, then the stopping function is shown the world's time and robot states; the clock has moved on by one more step, and whether a light sensor is present does not change |
| Simulation.World.Finish | jyrobot/world.py:111-112 | the clock advances, then the update |
| Simulation.World.Steps | jyrobot/world.py:98-105 | at most n steps; it stops after the first one whose stopping function answers true, and each step's stopping function is shown the world's time and robot states after that step. It fails exactly when there is a step to take and a robot carries a light sensor, and then it stops after the first step. The clock advances by the steps taken, a failed step included, since `step` moves the clock before `update` raises (world.py:111-112) |
| Simulation.World.Seconds | jyrobot/world.py:93-96 | the rounded quotient of seconds by time step is the number of steps, all taken when there is no stopping function and no failure; it fails exactly when that number is positive and a robot carries a light sensor; as in `steps`, it stops after the first step whose stopping function answers true, and each step's stopping function sees the state after that step; the clock advances by the steps taken |

## Left out

- The drawing side is left out: `draw` methods, the canvas and backends, widgets, watchers, `watch`, `__repr__`, `info`, printed messages and the debug lists. This is output only.
- Pillow and the dataset images are left out. The picture is an `array2` of colour values rather than a Pillow image, the Pillow import failure is not modelled, and every robot is taken to have no dataset image. So every robot strip is painted, and `show_obstacles` and `get_image` draw nothing.
- `jyrobot/sensors.py`, `config.py`, `colors.py`, `Matrix`, `Canvas`, `Color.toHex` and `toString` are not part of this model.
- RayCast.CastRay: builds each hit with the robot that owns the wall as its first field, as `cast_ray` calls `Hit` (`jyrobot/robot.py:315-317`). The class in `jyrobot/hit.py:13` takes seven arguments, without the robot, so the eight-argument call raises `TypeError` at the first hit. In the source, then, every cast that meets a line raises, and so does every range-sensor or camera update and every `take_picture` that sees something. The model does not capture that failure: its `Hit` carries the fields `cast_ray` passes.
- Utils.Picture.constructor: allocates the component buffer. In the source `imageData` starts as `None`, so `set` and `get` would raise until something assigns it.
- Simulation.Robot.UpdateBoundingBox: the source writes new coordinates into the existing `Point` objects of the four lines, which the world's wall shares. The model replaces the box value instead, and ties the wall to it through `Bounding(robot)`.
- `Robot.to_json` is left out.
- Simulation.Robot.constructor: parts of `Robot.from_json` are left out: the `devices` list, `image_data`, `body`, and colour parsing. The configured colour is taken as a ready colour.
- Simulation.Robot.constructor: the default robot colour `Color("red")` stores the string "red" in every component; the model uses pure red (255, 0, 0).
- `device.step` (robot.py:438-440) is omitted, because every device's `step` does nothing.
- Simulation.Lower: lower-cases ASCII letters only, where `str.lower` covers all of Unicode.
- Cameras.Camera.TakePicture: the distance scale `size` is a parameter, required to be non-zero. In the source line 141 reads `world.width` and `world.height`, which `World` does not define (it keeps `w` and `h`), so `take_picture` raises there. The colours' `to_tuple`, which the source calls, is not defined by `utils.py` either.
- Cameras.Camera.Capture: the world's time is the parameter `now`, and the walls the rays see are the parameter `ss`.
- LightSensors.LightSensor.Update: the world's bulb list is a parameter, absent (`None`) because `World` has none. `lightsensors.py` imports `distance` from `utils.py`, which does not define it; the model uses `Geometry.Distance` instead.
- Simulation.Robot.Step: the walls are the parameter `ss` instead of `self.world.walls`. A robot without a world, which raises in the source, is not modelled.
- Simulation.Robot.Update, Simulation.Robot.UpdateDevices, Simulation.Robot.UpdateDevice: each sensor casts from the pose of the robot that holds it in its device list, with that robot as the caster, and sees the walls `ss`. The source's sensors use their own back-pointer `self.robot` and `self.robot.world.walls` (`jyrobot/devices/rangesensors.py:74-112`). `add_device` sets that pointer, so the two agree unless one device is added to a second robot, which re-points it (`jyrobot/robot.py:174-179`). That aliasing is not modelled.
- Simulation.World.Step, Simulation.World.MoveRobots, Simulation.World.Update: do not state that each robot's `world` points back at the world, nor that each sensor points back at its robot. `Simulation.World.Valid` states only that every robot wall belongs to a robot of the world; `Simulation.World.AddRobot` preserves it, and the stepping methods cannot break it because they change neither the robot list nor the walls.
- Cameras.Camera.PaintOverlays, Cameras.Camera.OverlayColumn, Cameras.Camera.PaintAllOverlays, Cameras.Camera.Render, Cameras.Camera.TakePicture, Cameras.Survey, Cameras.SurveyOrdered, Cameras.ColumnImage, Cameras.Image: paint and record the corrected robot pass (`Cameras.Overlaid`), not the loop as written, which stops at the first robot behind the closest wall (see Findings). `Cameras.WrittenIsPrefixOfOverlaid` states how the two passes differ on each column, and `Cameras.SurveyOrdered` also covers the records the loop as written makes (`Cameras.WrittenSurvey`).
- Simulation.Robot.Step, Simulation.World.Step, Simulation.World.Steps, Simulation.World.Seconds: require non-zero ramps and time step, because `_deltav` and `seconds` divide by them (`ZeroDivisionError` is not modelled).
- RangeSensors.AfterSetDistance: requires a non-zero range, since `setDistance` divides by it. The method `SetDistance` models that case as failure.
- Cameras.Camera.Render and the picture functions require a non-zero distance scale, since the shading divides by it.
- RangeSensors.Arange: requires a positive step or an empty range. Otherwise the source's generator never ends.
- Simulation.World.constructor: a configuration that lists robots makes the source's constructor raise out of `reset`. The model's constructor then returns a world with no robots.
- Simulation.World.Reset: a configured robot fails at once (the source passes the configuration positionally to a keyword-only constructor), so no configured robot is ever built.
- Simulation.World.Update: states success and that the robots keep everything but their boxes. It does not state the new boxes or the sensor readings at the world level; `Simulation.Robot.Update` states those per robot.
- Simulation.World.Step: states the robots' states after the moving loop, but not the boxes and readings after the update, for the same reason.
- Simulation.World.Steps: the state the stopping function sees is a snapshot of time and robot states, not the whole world object.
- RayCast.CastIsSortedPermutation: states order and permutation. It does not state that equally distant hits keep their registry order. The model's sort is stable the way Python's is, through `Insert`, but this is not proved as a lemma.
- The Python tests are partly out of step with this version. `tests/test_utils.py` imports `arange` and `distance` from a `utils` module that does not define them. Its `arange(5, 1, -1)` case yields nothing under `rangesensors.py`'s generator, because the start is above the stop. `tests/test_world.py` reads `world.width`, which `World` does not have.
- The maths library is uninterpreted tables (see above), so nothing about the values of sine, cosine, square root or arc tangent is proved.
- Floating point is modelled as exact reals.

## Findings

| source | as written | input that shows it | evidently intended | confidence | as-written member | corrected member |
|---|---|---|---|---|---|---|
| jyrobot/devices/cameras.py:209-215 | The robot pass walks a column's robot hits farthest first and `break`s at the first one behind the closest wall. So a robot behind that wall stops the loop before the robots in front of it are reached. | A column with a robot at 50, a wall at 30 and a robot at 10: nothing is painted, and the robot at 10 is hidden. | Paint every robot hit that is not behind the closest wall (`continue` instead of `break`). The comment at line 214 says the hit is left out because it is "Behind this wall", which is a reason to skip that hit, not the nearer ones after it. | high; not executed | Cameras.BreakHidesNearerRobot | Cameras.OverlaidAreUnoccludedRobots |

The loop as written is `Cameras.UpToWall`, and `Cameras.Written` applies it to a column. `Cameras.WrittenIsPrefixOfOverlaid` relates the two passes on every column: the pass as written paints a prefix of the corrected one, and the two agree exactly when no robot behind the wall precedes one in front of it. The corrected pass is `Cameras.Overlaid`, which `Cameras.ColumnImage` and the camera's painting methods use.
