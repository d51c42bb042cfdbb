/** Robots with their devices and drive, and the world that owns the walls and steps every
    robot in turn. A robot's bounding box is shared with the world: the wall `addRobot`
    registers holds the robot's own lines, so every later move of the box is what the other
    robots' collision tests and ray casts see. */
module Simulation {
  import opened Wrappers
  import opened Utils
  import opened Numeric
  import opened Geometry
  import opened RayCast
  import opened Kinematics
  import opened RangeSensors
  import opened Cameras
  import opened LightSensors

  // ----- devices and their lookup -----

  /** A device mounted on a robot. */
  datatype Device =
    | RangeDevice(sensor: RangeSensor)
    | CameraDevice(camera: Camera)
    | LightDevice(light: LightSensor)

  /** The device object itself. */
  function Obj(d: Device): object {
    match d
    case RangeDevice(s) => s
    case CameraDevice(c) => c
    case LightDevice(l) => l
  }

  /** The robot a device points back at. */
  function RobotOf(d: Device): object?
    reads Obj(d)
  {
    match d
    case RangeDevice(s) => s.robot
    case CameraDevice(c) => c.robot
    case LightDevice(l) => l.robot
  }

  /** A device's `type` attribute. */
  function TypeOf(d: Device): string {
    match d
    case RangeDevice(_) => "RangeSensor"
    case CameraDevice(c) => c.typeName
    case LightDevice(l) => l.typeName
  }

  /** `str.lower` on one character, for ASCII letters. */
  function LowerChar(c: char): char {
    if 'A' <= c <= 'Z' then (c as int + 32) as char else c
  }

  function Lower(s: string): (r: string)
    ensures |r| == |s|
    ensures forall k :: 0 <= k < |s| ==> r[k] == LowerChar(s[k])
  {
    seq(|s|, k requires 0 <= k < |s| => LowerChar(s[k]))
  }

  /** The name given to `devices[...]` matches the device's type, ignoring case. */
  predicate Matches(d: Device, name: string) {
    Lower(name) == Lower(TypeOf(d))
  }

  /** Device k is the first one whose type matches. */
  predicate FirstMatch(devs: seq<Device>, name: string, k: int) {
    && 0 <= k < |devs|
    && Matches(devs[k], name)
    && forall j :: 0 <= j < k ==> !Matches(devs[j], name)
  }

  /** What `devices[item]` is given: an int, a string, or anything else. */
  datatype Key = Index(i: int) | TypeName(name: string) | OtherKey

  /** Its outcome: a device, `None`, or the `IndexError` of the list. */
  datatype Looked = Got(device: Device) | Nothing | IndexError

  /** The scan over the devices for a type name. */
  function FirstOfType(devs: seq<Device>, name: string): Looked {
    if devs == [] then Nothing
    else if Matches(devs[0], name) then Got(devs[0])
    else FirstOfType(devs[1..], name)
  }

  /** The scan returns the first matching device, and `None` when no device matches. */
  lemma {:induction false} FirstOfTypeIsFirst(devs: seq<Device>, name: string)
    ensures FirstOfType(devs, name) != IndexError
    ensures FirstOfType(devs, name).Got? <==> exists k :: 0 <= k < |devs| && Matches(devs[k], name)
    ensures FirstOfType(devs, name).Got? ==>
              exists k :: FirstMatch(devs, name, k) && FirstOfType(devs, name).device == devs[k]
  {
    if devs != [] && !Matches(devs[0], name) {
      var rest := devs[1..];
      FirstOfTypeIsFirst(rest, name);
      if exists k :: 0 <= k < |devs| && Matches(devs[k], name) {
        var k :| 0 <= k < |devs| && Matches(devs[k], name);
        assert rest[k - 1] == devs[k];
      }
      if FirstOfType(rest, name).Got? {
        var k :| FirstMatch(rest, name, k) && FirstOfType(rest, name).device == rest[k];
        forall j | 0 <= j < k + 1
          ensures !Matches(devs[j], name)
        {
          if j > 0 { assert devs[j] == rest[j - 1]; }
        }
        assert FirstMatch(devs, name, k + 1);
      }
    } else if devs != [] {
      assert FirstMatch(devs, name, 0);
    }
  }

  /** `Devices.__getitem__`: an int indexes the device list as Python does (negative from the
      end, `IndexError` outside), a string finds the first device of that type ignoring case,
      anything else gives `None`. */
  function Lookup(devs: seq<Device>, key: Key): (r: Looked)
    ensures key.Index? ==> (r.Got? <==> -|devs| <= key.i < |devs|) && (r.IndexError? <==> !r.Got?)
    ensures key.Index? && r.Got? ==> r.device == devs[if key.i < 0 then |devs| + key.i else key.i]
    ensures key.TypeName? ==> !r.IndexError?
    ensures key.TypeName? ==> (r.Got? <==> exists k :: 0 <= k < |devs| && Matches(devs[k], key.name))
    ensures key.TypeName? && r.Got? ==> exists k :: FirstMatch(devs, key.name, k) && r.device == devs[k]
    ensures key.OtherKey? ==> r == Nothing
  {
    match key
    case Index(i) =>
      if 0 <= i < |devs| then Got(devs[i])
      else if -|devs| <= i < 0 then Got(devs[|devs| + i])
      else IndexError
    case TypeName(n) =>
      FirstOfTypeIsFirst(devs, n);
      FirstOfType(devs, n)
    case OtherKey => Nothing
  }

  /** Lower-casing twice is lower-casing once. */
  lemma LowerTwice(s: string)
    ensures Lower(Lower(s)) == Lower(s)
  {
    forall k | 0 <= k < |s|
      ensures Lower(Lower(s))[k] == Lower(s)[k]
    {
      assert Lower(s)[k] == LowerChar(s[k]);
    }
  }

  /** Looking a type up by a name or by its lower-case form finds the same device. */
  lemma {:induction false} LookupIgnoresCase(devs: seq<Device>, name: string)
    ensures Lookup(devs, TypeName(Lower(name))) == Lookup(devs, TypeName(name))
  {
    LowerTwice(name);
    FirstOfTypeIgnoresCase(devs, name);
  }

  lemma {:induction false} FirstOfTypeIgnoresCase(devs: seq<Device>, name: string)
    requires Lower(Lower(name)) == Lower(name)
    ensures FirstOfType(devs, Lower(name)) == FirstOfType(devs, name)
  {
    if devs != [] {
      FirstOfTypeIgnoresCase(devs[1..], name);
    }
  }

  // ----- walls -----

  /** A wall's lines: fixed when the wall is added, or the live bounding box of a robot
      (`addRobot` hands over the robot's own line objects, which `update_boundingbox` moves). */
  datatype WallLines = Given(lines: seq<Line>) | Bounding(of: Robot)

  /** A wall: its colour, the robot it belongs to (if any), and its lines. */
  datatype Wall = Wall(color: Color, robot: Robot?, lines: WallLines)

  /** The owner a ray cast reports for a wall: the robot with its name and height, or none. */
  function OwnerOf(r: Robot?): Owner {
    if r == null then NoOwner else OwnedBy(r, r.name, r.height)
  }

  /** A wall as ray casts and collision tests see it, robot boxes taken from `st`. */
  function SurfaceOf(w: Wall, st: map<Robot, Kin>): Surface {
    Surface(w.color, OwnerOf(w.robot),
            match w.lines
            case Given(ls) => ls
            case Bounding(r) => if r in st then st[r].box else [])
  }

  /** All walls as ray casts and collision tests see them. */
  function Scene(walls: seq<Wall>, st: map<Robot, Kin>): (ss: seq<Surface>)
    ensures |ss| == |walls|
    decreases |walls|
  {
    if walls == [] then [] else [SurfaceOf(walls[0], st)] + Scene(walls[1..], st)
  }

  /** The scene shows each wall as `SurfaceOf` does, in wall order. */
  lemma {:induction false} SceneAt(walls: seq<Wall>, st: map<Robot, Kin>, k: int)
    requires 0 <= k < |walls|
    ensures Scene(walls, st)[k] == SurfaceOf(walls[k], st)
    decreases |walls|
  {
    if k > 0 {
      SceneAt(walls[1..], st, k - 1);
    }
  }

  /** A robot's wall shows exactly the box the robot has, and is owned by that robot. */
  lemma RobotWallShowsBox(walls: seq<Wall>, st: map<Robot, Kin>, k: int)
    requires 0 <= k < |walls| && walls[k].robot != null && walls[k].lines == Bounding(walls[k].robot)
    requires walls[k].robot in st
    ensures Scene(walls, st)[k].lines == st[walls[k].robot].box
    ensures OwnedByMe(Scene(walls, st)[k], walls[k].robot)
  {
    SceneAt(walls, st, k);
  }

  // ----- robots -----

  /** The keys of a robot's configuration that shape its motion; an absent key keeps the
      value `initialize` sets. */
  datatype RobotConfig = RobotConfig(
    name: Option<string>, color: Option<Color>, height: Option<real>,
    x: Option<real>, y: Option<real>, direction: Option<real>,
    vx: Option<real>, vy: Option<real>, va: Option<real>,
    tvx: Option<real>, tvy: Option<real>, tva: Option<real>,
    vxMax: Option<real>, vyMax: Option<real>, vaMax: Option<real>,
    vxRamp: Option<real>, vyRamp: Option<real>, vaRamp: Option<real>)

  const NoKeys: RobotConfig := RobotConfig(None, None, None, None, None, None, None, None, None,
                                           None, None, None, None, None, None, None, None, None)

  function Get<T>(o: Option<T>, d: T): T {
    if o.Some? then o.value else d
  }

  /** The colour of a robot whose configuration names none. */
  const DefaultColor: Color := Rgb(255.0, 0.0, 0.0)

  /** Speed limits and ramps: 2 cm/s along x and y, 0.9 pi rad/s turning, 1 second ramps. */
  function LimitsOf(c: RobotConfig): Limits {
    Limits(Get(c.vxMax, 2.0), Get(c.vyMax, 2.0), Get(c.vaMax, Pi * 0.9),
           Get(c.vxRamp, 1.0), Get(c.vyRamp, 1.0), Get(c.vaRamp, 1.0))
  }

  /** The starting pose; the direction is configured in degrees. */
  function PoseOf(c: RobotConfig): Pose {
    Pose(Get(c.x, 0.0), Get(c.y, 0.0), if c.direction.Some? then DegToRad(c.direction.value) else 0.0)
  }

  const Origin: Pose := Pose(0.0, 0.0, 0.0)

  /** A robot's state right after construction. `initialize` places the box at the origin and
      `from_json` moves the pose without moving the box. */
  function StartOf(c: RobotConfig, m: Math): Kin {
    Kin(PoseOf(c), Vel(Get(c.vx, 0.0), Get(c.vy, 0.0), Get(c.va, 0.0)),
        Vel(Get(c.tvx, 0.0), Get(c.tvy, 0.0), Get(c.tva, 0.0)), false, BoxOf(Origin, m), [])
  }

  /** An unconfigured robot rests at the origin with its box around it, and its ramps allow
      stepping. */
  lemma DefaultRobotRests(m: Math)
    ensures StartOf(NoKeys, m).pose == Origin && StartOf(NoKeys, m).box == BoxOf(Origin, m)
    ensures StartOf(NoKeys, m).vel == Vel(0.0, 0.0, 0.0) == StartOf(NoKeys, m).target
    ensures RampsNonZero(LimitsOf(NoKeys))
    ensures LimitsOf(NoKeys).vaMax > 0.0
  {}

  /** A configured pose other than the origin leaves the box behind until the next update. */
  lemma ConfiguredBoxLags(c: RobotConfig, m: Math)
    ensures StartOf(c, m).box == BoxOf(Origin, m)
  {}

  class Robot {
    const name: string
    const color: Color
    const height: real
    const lim: Limits
    var world: World?
    var pose: Pose
    var vel: Vel
    var target: Vel
    var stalled: bool
    var box: seq<Line>
    var trace: seq<TracePoint>
    var devices: seq<Device>

    /** Everything `step` reads or writes. */
    function State(): Kin
      reads this`pose, this`vel, this`target, this`stalled, this`box, this`trace
    {
      Kin(pose, vel, target, stalled, box, trace)
    }

    /** The range sensors among the devices. */
    function Sensors(): set<RangeSensor>
      reads this`devices
    {
      set k | 0 <= k < |devices| && devices[k].RangeDevice? :: devices[k].sensor
    }

    /** The light sensors among the devices. */
    function Lights(): set<LightSensor>
      reads this`devices
    {
      set k | 0 <= k < |devices| && devices[k].LightDevice? :: devices[k].light
    }

    /** No device is a light sensor. */
    predicate Unlit()
      reads this`devices
    {
      forall k :: 0 <= k < |devices| ==> !devices[k].LightDevice?
    }

    /** Every range sensor holds the distance its rays find in `ss` from the robot's pose. */
    predicate RangesRead(ss: seq<Surface>, m: Math)
      reads this, Sensors()
    {
      RangesReadUpTo(|devices|, ss, m)
    }

    /** The range sensors among the first n devices hold what their rays find. */
    predicate RangesReadUpTo(n: int, ss: seq<Surface>, m: Math)
      requires n <= |devices|
      reads this, Sensors()
    {
      forall k :: 0 <= k < n && devices[k].RangeDevice? ==>
        devices[k].sensor.distance == Sensed(devices[k].sensor.Settings(), pose, ss, this, m)
    }

    /** `Robot(**config)`: `initialize` then `from_json`. */
    constructor (config: RobotConfig, m: Math)
      ensures name == Get(config.name, "Robbie") && color == Get(config.color, DefaultColor)
      ensures height == Get(config.height, 0.25) && lim == LimitsOf(config)
      ensures State() == StartOf(config, m)
      ensures devices == [] && world == null
    {
      name := Get(config.name, "Robbie");
      color := Get(config.color, DefaultColor);
      height := Get(config.height, 0.25);
      lim := LimitsOf(config);
      world := null;
      var s := StartOf(config, m);
      pose, vel, target, stalled, box, trace := s.pose, s.vel, s.target, s.stalled, s.box, s.trace;
      devices := [];
    }

    /** `move`: set the x and turn targets. */
    method Move(translate: real, rotate: real)
      modifies this`target
      ensures target == Kinematics.Move(old(target), translate, rotate, lim)
    {
      target := Kinematics.Move(target, translate, rotate, lim);
    }

    method Forward(translate: real)
      modifies this`target
      ensures target == Kinematics.Forward(old(target), translate, lim)
    {
      target := Kinematics.Forward(target, translate, lim);
    }

    method Backward(translate: real)
      modifies this`target
      ensures target == Kinematics.Backward(old(target), translate, lim)
    {
      target := Kinematics.Backward(target, translate, lim);
    }

    method Reverse()
      modifies this`target
      ensures target == Kinematics.Reverse(old(target))
    {
      target := Kinematics.Reverse(target);
    }

    method Turn(rotate: real)
      modifies this`target
      ensures target == Kinematics.Turn(old(target), rotate, lim)
    {
      target := Kinematics.Turn(target, rotate, lim);
    }

    method Stop()
      modifies this`target
      ensures target == Vel(0.0, 0.0, 0.0)
    {
      target := Kinematics.Stop(target);
    }

    /** `update_boundingbox`: the box through the four corners, closed. */
    method UpdateBoundingBox(p1: Point, p2: Point, p3: Point, p4: Point)
      modifies this`box
      ensures box == Loop4(p1, p2, p3, p4) && ClosedLoop(box)
    {
      box := Loop4(p1, p2, p3, p4);
    }

    /** `init_boundingbox`: the box around the current pose. */
    method InitBoundingBox(m: Math)
      modifies this`box
      ensures box == BoxOf(pose, m)
    {
      var c := BoxCorners(pose, m);
      UpdateBoundingBox(c[0], c[1], c[2], c[3]);
    }

    /** `step`: ramp the velocities, put the box on the proposed pose, scan the walls of
        others, commit or stall, and append to the trace. The walls are given as `ss`. */
    method Step(ss: seq<Surface>, timeStep: real, m: Math)
      requires RampsNonZero(lim) && timeStep != 0.0
      modifies this`pose, this`vel, this`stalled, this`box, this`trace
      ensures State() == StepKin(old(State()), lim, ss, this, timeStep, m)
    {
      var nv := Ramp(vel, target, lim, timeStep);
      var proposed := ProposePose(pose, nv, timeStep, m);
      var c := BoxCorners(proposed, m);
      UpdateBoundingBox(c[0], c[1], c[2], c[3]);
      stalled := ScanCollisions(ss, this, c);
      if !stalled {
        vel := nv;
        pose := proposed;
      } else {
        vel := Vel(0.0, 0.0, 0.0);
      }
      trace := trace + [TracePoint(Point(pose.x, pose.y), pose.direction)];
    }

    /** `add_device`: a device already in the list is refused; otherwise it is appended and
        pointed back at this robot. */
    method AddDevice(d: Device)
      modifies this`devices, Obj(d)
      ensures d in old(devices) ==> devices == old(devices) && unchanged(Obj(d))
      ensures d !in old(devices) ==> devices == old(devices) + [d] && RobotOf(d) == this
    {
      if d !in devices {
        match d {
          case RangeDevice(s) => s.robot := this;
          case CameraDevice(c) => c.robot := this;
          case LightDevice(l) => l.robot := this;
        }
        devices := devices + [d];
      }
    }

    /** `update`: put the box back on the pose, then update the devices in order. A range
        sensor casts its rays into `ss`; a camera defers its work to `take_picture`; a light
        sensor reads the world's bulbs, which the world does not have, and fails, ending the
        update at the first light sensor. */
    method Update(ss: seq<Surface>, m: Math) returns (ok: bool)
      modifies this`box, Sensors()`reading, Sensors()`distance, Lights()`value
      ensures box == BoxOf(pose, m) && State() == old(State()).(box := box)
      ensures ok <==> Unlit()
      ensures ok ==> RangesRead(ss, m)
    {
      InitBoundingBox(m);
      ok := UpdateDevices(ss, m);
    }

    /** One device's turn in the loop of `update`: a range sensor casts its rays and the
        sensors before it keep what they read; a camera does nothing; a light sensor fails. */
    method UpdateDevice(i: nat, ss: seq<Surface>, m: Math) returns (ok: bool)
      requires i < |devices| && RangesReadUpTo(i, ss, m)
      modifies Sensors()`reading, Sensors()`distance, Lights()`value
      ensures ok <==> !devices[i].LightDevice?
      ensures ok ==> RangesReadUpTo(i + 1, ss, m)
    {
      match devices[i] {
        case RangeDevice(s) =>
          s.Update(pose, ss, this, m);
          ok := true;
        case CameraDevice(_) =>
          ok := true;
        case LightDevice(l) =>
          var _ := l.Update(None, pose, ss, this, m);
          ok := false;
      }
    }

    /** The loop of `update` over the devices. */
    method UpdateDevices(ss: seq<Surface>, m: Math) returns (ok: bool)
      modifies Sensors()`reading, Sensors()`distance, Lights()`value
      ensures ok <==> Unlit()
      ensures ok ==> RangesRead(ss, m)
    {
      var i := 0;
      while i < |devices|
        invariant 0 <= i <= |devices|
        invariant forall k :: 0 <= k < i ==> !devices[k].LightDevice?
        invariant RangesReadUpTo(i, ss, m)
      {
        ok := UpdateDevice(i, ss, m);
        if !ok {
          return;
        }
        i := i + 1;
      }
      return true;
    }
  }

  // ----- the world -----

  /** An entry of the `boxes` list: its colour and two opposite corners. */
  datatype BoxConfig = BoxConfig(red: real, green: real, blue: real,
                                 x1: real, y1: real, x2: real, y2: real)

  /** The `world` part of the configuration. */
  datatype WorldSettings = WorldSettings(width: Option<real>, height: Option<real>, boxes: seq<BoxConfig>)

  /** A world's configuration: its settings and the robots it lists. */
  datatype WorldConfig = WorldConfig(world: WorldSettings, robots: seq<RobotConfig>)

  /** `addBox`: an unowned wall along the four sides of the rectangle, closed. */
  function BoxWall(color: Color, x1: real, y1: real, x2: real, y2: real): (w: Wall)
    ensures w.robot == null && w.color == color && w.lines.Given?
    ensures |w.lines.lines| == 4 && ClosedLoop(w.lines.lines)
    ensures w.lines.lines[0].p1 == Point(x1, y1) && w.lines.lines[2].p1 == Point(x2, y2)
  {
    Wall(color, null, Given(Loop4(Point(x1, y1), Point(x2, y1), Point(x2, y2), Point(x1, y2))))
  }

  /** The walls `setConfig` adds for the configured boxes, in order. */
  function BoxWalls(boxes: seq<BoxConfig>): (ws: seq<Wall>)
    ensures |ws| == |boxes|
  {
    seq(|boxes|, k requires 0 <= k < |boxes| =>
      var b := boxes[k]; BoxWall(Rgb(b.red, b.green, b.blue), b.x1, b.y1, b.x2, b.y2))
  }

  /** The colour of the arena's boundary. */
  const BoundaryColor: Color := Rgb(128.0, 0.0, 128.0)

  /** The four one-line walls around the arena, unowned. */
  function Boundary(w: real, h: real): seq<Wall> {
    var ls := Loop4(Point(0.0, 0.0), Point(0.0, h), Point(w, h), Point(w, 0.0));
    seq(4, k requires 0 <= k < 4 => Wall(BoundaryColor, null, Given([ls[k]])))
  }

  /** The boundary walls together close the rectangle from (0, 0) to (w, h). */
  lemma BoundaryEncloses(w: real, h: real)
    ensures |Boundary(w, h)| == 4
    ensures forall k :: 0 <= k < 4 ==> Boundary(w, h)[k].robot == null && |Boundary(w, h)[k].lines.lines| == 1
    ensures ClosedLoop(seq(4, k requires 0 <= k < 4 => Boundary(w, h)[k].lines.lines[0]))
    ensures Boundary(w, h)[0].lines.lines[0].p1 == Point(0.0, 0.0)
    ensures Boundary(w, h)[2].lines.lines[0].p1 == Point(w, h)
  {
    var ls := Loop4(Point(0.0, 0.0), Point(0.0, h), Point(w, h), Point(w, 0.0));
    assert seq(4, k requires 0 <= k < 4 => Boundary(w, h)[k].lines.lines[0]) == ls;
  }

  /** The clock after n steps of length t, added up one step at a time. */
  function Elapsed(n: nat, t: real): real {
    if n == 0 then 0.0 else Elapsed(n - 1, t) + t
  }

  /** Adding up n steps gives n times the step. */
  lemma {:induction false} ElapsedIsProduct(n: nat, t: real)
    ensures Elapsed(n, t) == n as real * t
  {
    if n > 0 {
      ElapsedIsProduct(n - 1, t);
      assert n as real * t == (n - 1) as real * t + t;
    }
  }

  /** What a stopping function may look at: the time and each robot's state. */
  datatype Snapshot = Snapshot(time: real, robots: seq<Kin>)

  /** The stopping function is given and answers true. */
  predicate Stops(stop: Option<Snapshot -> bool>, s: Snapshot) {
    stop.Some? && stop.value(s)
  }

  function Kins(rs: seq<Robot>): (ks: seq<Kin>)
    reads set r | r in rs
    ensures |ks| == |rs|
  {
    if rs == [] then [] else [rs[0].State()] + Kins(rs[1..])
  }

  /** The state of every robot, keyed by the robot. */
  function StatesOf(rs: seq<Robot>): (st: map<Robot, Kin>)
    reads set r | r in rs
    ensures forall k :: 0 <= k < |rs| ==> rs[k] in st
  {
    map r | r in rs :: r.State()
  }

  /** Every robot of the list can step with this time step. */
  predicate Steppable(rs: seq<Robot>, timeStep: real) {
    timeStep != 0.0 && forall k :: 0 <= k < |rs| ==> RampsNonZero(rs[k].lim)
  }

  /** `world.step`'s loop over the robots on values, after the turns of the first n robots:
      each robot in turn steps against the walls as the robots before it left them. A robot
      listed twice steps twice. */
  ghost function Advance(rs: seq<Robot>, n: nat, walls: seq<Wall>, st: map<Robot, Kin>, timeStep: real, m: Math): (r: map<Robot, Kin>)
    requires n <= |rs| && Steppable(rs, timeStep)
    requires forall k :: 0 <= k < |rs| ==> rs[k] in st
    ensures r.Keys == st.Keys
    decreases n, 1
  {
    if n == 0 then st
    else Advance(rs, n - 1, walls, st, timeStep, m)[rs[n - 1] := TurnOf(rs, n, walls, st, timeStep, m)]
  }

  /** The state the n-th robot of the list ends its turn in (counting from 1). */
  ghost function TurnOf(rs: seq<Robot>, n: nat, walls: seq<Wall>, st: map<Robot, Kin>, timeStep: real, m: Math): (r: Kin)
    requires 0 < n <= |rs| && Steppable(rs, timeStep)
    requires forall k :: 0 <= k < |rs| ==> rs[k] in st
    ensures |r.trace| > 0 && r.trace[|r.trace| - 1] == TracePoint(Point(r.pose.x, r.pose.y), r.pose.direction)
    decreases n, 0
  {
    var before := Advance(rs, n - 1, walls, st, timeStep, m);
    var me := rs[n - 1];
    StepKin(before[me], me.lim, Scene(walls, before), me, timeStep, m)
  }

  /** A robot's step sees the box of every robot stepped before it at its new place, and the
      box of every robot stepped after it where it was. */
  lemma SecondSeesFirstMove(a: Robot, b: Robot, walls: seq<Wall>, st: map<Robot, Kin>, timeStep: real, m: Math)
    requires a != b && a in st && b in st
    requires RampsNonZero(a.lim) && RampsNonZero(b.lim) && timeStep != 0.0
    ensures var sa := StepKin(st[a], a.lim, Scene(walls, st), a, timeStep, m);
            Advance([a, b], 2, walls, st, timeStep, m) ==
              st[a := sa][b := StepKin(st[b], b.lim, Scene(walls, st[a := sa]), b, timeStep, m)]
  {
    var sa := StepKin(st[a], a.lim, Scene(walls, st), a, timeStep, m);
    assert Advance([a, b], 1, walls, st, timeStep, m) == st[a := sa];
  }

  /** The robots not in the list keep their state. */
  lemma {:induction false} AdvanceKeepsOthers(rs: seq<Robot>, n: nat, walls: seq<Wall>, st: map<Robot, Kin>, timeStep: real, m: Math, o: Robot)
    requires n <= |rs| && Steppable(rs, timeStep)
    requires forall k :: 0 <= k < |rs| ==> rs[k] in st
    requires o in st && o !in rs
    ensures Advance(rs, n, walls, st, timeStep, m)[o] == st[o]
    decreases n
  {
    if n > 0 {
      AdvanceKeepsOthers(rs, n - 1, walls, st, timeStep, m, o);
      var before := Advance(rs, n - 1, walls, st, timeStep, m);
      var t := TurnOf(rs, n, walls, st, timeStep, m);
      assert rs[n - 1] != o;
      assert before[rs[n - 1] := t][o] == before[o];
    }
  }

  /** Stepping never changes where a robot is heading for. */
  lemma {:induction false} AdvanceKeepsTargets(rs: seq<Robot>, n: nat, walls: seq<Wall>, st: map<Robot, Kin>, timeStep: real, m: Math)
    requires n <= |rs| && Steppable(rs, timeStep)
    requires forall k :: 0 <= k < |rs| ==> rs[k] in st
    ensures forall o :: o in st ==> Advance(rs, n, walls, st, timeStep, m)[o].target == st[o].target
    decreases n
  {
    if n > 0 {
      AdvanceKeepsTargets(rs, n - 1, walls, st, timeStep, m);
      var t := TurnOf(rs, n, walls, st, timeStep, m);
      assert t.target == st[rs[n - 1]].target;
    }
  }

  class World {
    const config: WorldConfig
    var timeStep: real
    var time: real
    var w: real
    var h: real
    var groundColor: Color
    var robots: seq<Robot>
    var walls: seq<Wall>

    /** Every robot wall belongs to a robot of the world. */
    predicate Valid()
      reads this`walls, this`robots
    {
      forall k :: 0 <= k < |walls| && walls[k].lines.Bounding? ==> walls[k].lines.of in robots
    }

    /** The robots' states, keyed by robot. */
    function States(): map<Robot, Kin>
      reads this`robots, set r | r in robots
    {
      StatesOf(robots)
    }

    /** The walls as every robot sees them now. */
    function Surfaces(): seq<Surface>
      reads this`robots, this`walls, set r | r in robots
    {
      Scene(walls, States())
    }

    function Bodies(): set<Robot>
      reads this`robots
    {
      set r | r in robots
    }

    /** The range sensors of every robot. */
    function Sensors(): set<RangeSensor>
      reads this`robots, Bodies()`devices
    {
      set r, k | r in robots && 0 <= k < |r.devices| && r.devices[k].RangeDevice? :: r.devices[k].sensor
    }

    /** The light sensors of every robot. */
    function Lights(): set<LightSensor>
      reads this`robots, Bodies()`devices
    {
      set r, k | r in robots && 0 <= k < |r.devices| && r.devices[k].LightDevice? :: r.devices[k].light
    }

    /** No robot carries a light sensor. */
    predicate Unlit()
      reads this`robots, Bodies()`devices
    {
      UnlitUpTo(|robots|)
    }

    /** None of the first n robots carries a light sensor. */
    predicate UnlitUpTo(n: int)
      requires 0 <= n <= |robots|
      reads this`robots, Bodies()`devices
    {
      forall j :: 0 <= j < n ==> robots[j].Unlit()
    }

    /** The time step `step` uses: the one given, or the world's. */
    function StepLength(ts: Option<real>): real
      reads this`timeStep
    {
      if ts.Some? then ts.value else timeStep
    }

    function Snap(): Snapshot
      reads this`time, this`robots, set r | r in robots
    {
      Snapshot(time, Kins(robots))
    }

    /** `World(config)`: `reset` on a new world. A configuration that lists robots makes
        `reset` fail; the world then has no robots. */
    constructor (config: WorldConfig)
      ensures this.config == config && robots == [] && time == 0.0 && timeStep == 0.1
      ensures walls == BoxWalls(config.world.boxes) + Boundary(w, h)
      ensures w == Get(config.world.width, 500.0) && h == Get(config.world.height, 250.0)
      ensures Valid()
    {
      this.config := config;
      new;
      var _ := Reset();
    }

    /** `reset`: clear the world, apply the world settings, put the boundary around the arena,
        then add the configured robots. `Robot(robotConfig)` passes the configuration
        positionally to a constructor that takes only keywords, so any listed robot fails. */
    method Reset() returns (ok: bool)
      modifies this`timeStep, this`time, this`w, this`h, this`groundColor, this`robots, this`walls
      ensures ok <==> config.robots == []
      ensures robots == [] && time == 0.0 && timeStep == 0.1 && groundColor == Rgb(0.0, 128.0, 0.0)
      ensures w == Get(config.world.width, 500.0) && h == Get(config.world.height, 250.0)
      ensures walls == BoxWalls(config.world.boxes) + Boundary(w, h)
      ensures Valid()
    {
      timeStep := 0.1;
      time := 0.0;
      robots := [];
      walls := [];
      SetConfig(config.world);
      groundColor := Rgb(0.0, 128.0, 0.0);
      var ls := Loop4(Point(0.0, 0.0), Point(0.0, h), Point(w, h), Point(w, 0.0));
      AddWall(BoundaryColor, null, [ls[0]]);
      AddWall(BoundaryColor, null, [ls[1]]);
      AddWall(BoundaryColor, null, [ls[2]]);
      AddWall(BoundaryColor, null, [ls[3]]);
      assert walls == BoxWalls(config.world.boxes) + Boundary(w, h);
      ok := config.robots == [];
    }

    /** `setConfig`: the arena's size (500 by 250 unless given) and one wall per box. */
    method SetConfig(s: WorldSettings)
      modifies this`w, this`h, this`walls
      ensures w == Get(s.width, 500.0) && h == Get(s.height, 250.0)
      ensures walls == old(walls) + BoxWalls(s.boxes)
    {
      w := Get(s.width, 500.0);
      h := Get(s.height, 250.0);
      var i := 0;
      while i < |s.boxes|
        invariant 0 <= i <= |s.boxes|
        invariant w == Get(s.width, 500.0) && h == Get(s.height, 250.0)
        invariant walls == old(walls) + BoxWalls(s.boxes[..i])
      {
        var b := s.boxes[i];
        AddBox(Rgb(b.red, b.green, b.blue), b.x1, b.y1, b.x2, b.y2);
        assert BoxWalls(s.boxes[..i + 1]) == BoxWalls(s.boxes[..i]) + [BoxWalls(s.boxes)[i]];
        i := i + 1;
      }
      assert s.boxes[..i] == s.boxes;
    }

    /** `addBox`. */
    method AddBox(color: Color, x1: real, y1: real, x2: real, y2: real)
      modifies this`walls
      ensures walls == old(walls) + [BoxWall(color, x1, y1, x2, y2)]
    {
      AddWall(color, null, Loop4(Point(x1, y1), Point(x2, y1), Point(x2, y2), Point(x1, y2)));
    }

    /** `addWall`: appended, so later walls come later in every scan. */
    method AddWall(c: Color, robot: Robot?, lines: seq<Line>)
      modifies this`walls
      ensures walls == old(walls) + [Wall(c, robot, Given(lines))]
    {
      walls := walls + [Wall(c, robot, Given(lines))];
    }

    /** `addRobot`: the robot joins the world, and its bounding box becomes a wall of the
        robot's colour that the robot owns. */
    method AddRobot(robot: Robot)
      modifies this`robots, this`walls, robot`world
      ensures robots == old(robots) + [robot] && robot.world == this
      ensures walls == old(walls) + [Wall(robot.color, robot, Bounding(robot))]
      ensures old(Valid()) ==> Valid()
    {
      robots := robots + [robot];
      robot.world := this;
      walls := walls + [Wall(robot.color, robot, Bounding(robot))];
    }

    /** The loop of `step` over the robots: each one steps against the walls as they are at
        its turn, so it sees where the robots before it have moved. */
    method MoveRobots(t: real, m: Math)
      requires Steppable(robots, t)
      modifies Bodies()`pose, Bodies()`vel, Bodies()`stalled, Bodies()`box, Bodies()`trace
      ensures States() == Advance(robots, |robots|, walls, old(States()), t, m)
    {
      var i := 0;
      while i < |robots|
        invariant i <= |robots| && TurnsTaken(i, old(States()), t, m)
      {
        StepRobot(i, old(States()), t, m);
        i := i + 1;
      }
    }

    /** The robots are as `step`'s loop leaves them after the turns of the first `n` robots,
        starting from the states `start`. */
    ghost predicate TurnsTaken(n: nat, start: map<Robot, Kin>, t: real, m: Math)
      reads this`robots, this`walls, Bodies()
    {
      n <= |robots| && Steppable(robots, t) && (forall k :: 0 <= k < |robots| ==> robots[k] in start) &&
      States() == Advance(robots, n, walls, start, t, m)
    }

    /** The turn of the robot at index `i` in `step`: it steps against the walls as the
        robots before it left them, and no other robot changes. */
    method StepRobot(i: nat, ghost start: map<Robot, Kin>, t: real, m: Math)
      requires i < |robots| && TurnsTaken(i, start, t, m)
      modifies Bodies()`pose, Bodies()`vel, Bodies()`stalled, Bodies()`box, Bodies()`trace
      ensures TurnsTaken(i + 1, start, t, m)
    {
      var ss := Surfaces();
      robots[i].Step(ss, t, m);
    }

    /** `update`: every robot in turn puts its box back on its pose and updates its devices,
        seeing the robots before it with their boxes put back; the first light sensor makes it
        fail. */
    method Update(m: Math) returns (ok: bool)
      modifies Bodies()`box, Sensors()`reading, Sensors()`distance, Lights()`value
      ensures ok <==> Unlit()
      ensures forall r :: r in robots ==> r.State() == old(r.State()).(box := r.box)
    {
      var i := 0;
      while i < |robots|
        invariant 0 <= i <= |robots|
        invariant forall r :: r in robots ==> r.State() == old(r.State()).(box := r.box)
        invariant UnlitUpTo(i)
      {
        ok := UpdateRobot(i, robots[i], m);
        if !ok {
          return;
        }
        i := i + 1;
      }
      ok := true;
    }

    /** One robot's turn in `update`: it sees the walls as they are at its turn, and the
        update goes on exactly when it carries no light sensor. */
    method UpdateRobot(i: nat, r: Robot, m: Math) returns (ok: bool)
      requires i < |robots| && r == robots[i] && UnlitUpTo(i)
      modifies r`box, Sensors()`reading, Sensors()`distance, Lights()`value
      ensures r.box == BoxOf(r.pose, m)
      ensures ok <==> r.Unlit()
      ensures ok ==> UnlitUpTo(i + 1)
      ensures !ok ==> !Unlit()
      ensures forall q :: q in robots ==> q.State() == old(q.State()).(box := q.box)
    {
      ok := r.Update(Surfaces(), m);
      forall q | q in robots
        ensures q.State() == old(q.State()).(box := q.box)
      {
        if q != r {
          assert q.State() == old(q.State());
        }
      }
    }

    /** `step`: move every robot, advance the clock, then update. Each robot ends in the state
        the loop over the robots gives it, except that the update may have moved its box. */
    method Step(ts: Option<real>, m: Math) returns (ok: bool)
      requires Steppable(robots, StepLength(ts))
      modifies this`time, Bodies()`pose, Bodies()`vel, Bodies()`stalled, Bodies()`box, Bodies()`trace
      modifies Sensors()`reading, Sensors()`distance, Lights()`value
      ensures time == old(time) + old(StepLength(ts))
      ensures ok <==> Unlit()
      ensures var moved := Advance(robots, |robots|, walls, old(States()), old(StepLength(ts)), m);
              forall r :: r in robots ==> r.State() == moved[r].(box := r.box)
    {
      var t := StepLength(ts);
      MoveRobots(t, m);
      ghost var moved := States();
      assert forall r :: r in robots ==> moved[r] == r.State();
      ok := Finish(t, m);
    }

    /** The end of `step`: the clock advances, then `update`. */
    method Finish(t: real, m: Math) returns (ok: bool)
      modifies this`time, Bodies()`box, Sensors()`reading, Sensors()`distance, Lights()`value
      ensures time == old(time) + t
      ensures ok <==> Unlit()
      ensures forall r :: r in robots ==> r.State() == old(r.State()).(box := r.box)
    {
      time := time + t;
      ok := Update(m);
    }

    /** A step as `steps` counts it: the clock moves on by the time step, the robots and
        the walls stay the same objects, and the step fails exactly when a robot carries a
        light sensor. */
    method Tick(ts: Option<real>, m: Math) returns (ok: bool)
      requires Steppable(robots, StepLength(ts))
      modifies this`time, Bodies()`pose, Bodies()`vel, Bodies()`stalled, Bodies()`box, Bodies()`trace
      modifies Sensors()`reading, Sensors()`distance, Lights()`value
      ensures time == old(time) + old(StepLength(ts))
      ensures ok <==> Unlit()
    {
      ok := Step(ts, m);
    }

    /** One step of `steps` and what its stopping function is shown afterwards: the world's
        time and robot states, the clock having moved on by one more step since `start`. */
    method Observe(ts: Option<real>, m: Math, ghost start: real, ghost seen: seq<Snapshot>)
      returns (ok: bool, ghost shown: seq<Snapshot>)
      requires Steppable(robots, StepLength(ts))
      requires time == start + Elapsed(|seen|, StepLength(ts))
      requires forall k :: 0 <= k < |seen| ==> seen[k].time == start + Elapsed(k + 1, StepLength(ts))
      modifies this`time, Bodies()`pose, Bodies()`vel, Bodies()`stalled, Bodies()`box, Bodies()`trace
      modifies Sensors()`reading, Sensors()`distance, Lights()`value
      ensures ok <==> Unlit()
      ensures Unlit() == old(Unlit()) && StepLength(ts) == old(StepLength(ts)) && robots == old(robots)
      ensures shown == seen + [Snap()]
      ensures time == start + Elapsed(|shown|, StepLength(ts))
      ensures forall k :: 0 <= k < |shown| ==> shown[k].time == start + Elapsed(k + 1, StepLength(ts))
    {
      ok := Tick(ts, m);
      shown := seen + [Snap()];
    }

    /** `steps`: up to n steps, stopping after the first one whose stopping function answers
        true. `seen` is what the stopping function was shown after each step. A step that
        fails (a light sensor) ends the loop too; its clock has already moved on. */
    method Steps(n: int, stop: Option<Snapshot -> bool>, ts: Option<real>, m: Math)
      returns (taken: nat, ok: bool, ghost seen: seq<Snapshot>)
      requires Steppable(robots, StepLength(ts))
      modifies this`time, Bodies()`pose, Bodies()`vel, Bodies()`stalled, Bodies()`box, Bodies()`trace
      modifies Sensors()`reading, Sensors()`distance, Lights()`value
      ensures taken <= (if n < 0 then 0 else n) && |seen| == taken
      ensures ok <==> (n <= 0 || old(Unlit()))
      ensures !ok ==> taken == 1
      ensures forall k :: 0 <= k < taken - 1 ==> !Stops(stop, seen[k])
      ensures ok && taken < n ==> 0 < taken && Stops(stop, seen[taken - 1])
      ensures forall k :: 0 <= k < taken ==> seen[k].time == old(time) + Elapsed(k + 1, old(StepLength(ts)))
      ensures taken > 0 ==> seen[taken - 1] == Snap()
      ensures time == old(time) + Elapsed(taken, old(StepLength(ts)))
    {
      var t := StepLength(ts);
      taken, ok, seen := 0, true, [];
      while taken < n
        invariant taken <= (if n < 0 then 0 else n) && |seen| == taken
        invariant StepLength(ts) == t && Steppable(robots, t)
        invariant Unlit() == old(Unlit())
        invariant ok && (taken > 0 ==> Unlit())
        invariant forall k :: 0 <= k < taken ==> !Stops(stop, seen[k])
        invariant forall k :: 0 <= k < taken ==> seen[k].time == old(time) + Elapsed(k + 1, t)
        invariant taken > 0 ==> seen[taken - 1] == Snap()
        invariant time == old(time) + Elapsed(taken, t)
      {
        ok, seen := Observe(ts, m, old(time), seen);
        taken := taken + 1;
        if !ok {
          return;
        }
        if Stops(stop, Snap()) {
          return;
        }
      }
    }

    /** `seconds`: as many steps as the rounded quotient of the seconds by the time step. */
    method Seconds(s: real, stop: Option<Snapshot -> bool>, ts: Option<real>, m: Math)
      returns (taken: nat, ok: bool, ghost seen: seq<Snapshot>)
      requires Steppable(robots, StepLength(ts))
      modifies this`time, Bodies()`pose, Bodies()`vel, Bodies()`stalled, Bodies()`box, Bodies()`trace
      modifies Sensors()`reading, Sensors()`distance, Lights()`value
      ensures var count := RoundHalfEven(s / old(StepLength(ts)));
              && taken <= (if count < 0 then 0 else count)
              && (ok && stop.None? ==> taken == (if count < 0 then 0 else count))
              && (ok <==> (count <= 0 || old(Unlit())))
              && |seen| == taken
              && (ok && taken < count ==> 0 < taken && Stops(stop, seen[taken - 1]))
      ensures !ok ==> taken == 1
      ensures forall k :: 0 <= k < taken - 1 ==> !Stops(stop, seen[k])
      ensures taken > 0 ==> seen[taken - 1] == Snap()
      ensures time == old(time) + Elapsed(taken, old(StepLength(ts)))
    {
      var count := RoundHalfEven(s / StepLength(ts));
      taken, ok, seen := Steps(count, stop, ts, m);
    }
  }
}
