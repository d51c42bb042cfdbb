/** Casting a ray through the walls of the world (`Robot.cast_ray`): every crossing of the ray
    with a wall line that is not the caster's own becomes a hit, and the hits come out farthest
    first, so that a painter drawing them in order ends with the nearest one. */
module RayCast {
  import opened Wrappers
  import opened Utils
  import opened Numeric
  import opened Geometry

  /** Who a wall belongs to: nobody (the arena boundary and boxes) or a robot, known by its
      identity, its name and its height ratio. */
  datatype Owner = NoOwner | OwnedBy(robot: object, name: string, height: real)

  /** A wall as a ray sees it at one instant: its colour, its owner and its current lines. */
  datatype Surface = Surface(color: Color, owner: Owner, lines: seq<Line>)

  /** Where a ray met a wall line: the owner of that wall, the height ratio it shows to a camera,
      the crossing point, its distance from the ray's start, the wall's colour and the start. */
  datatype Hit = Hit(owner: Owner, height: real, x: real, y: real, distance: real, color: Color,
                     startX: real, startY: real)

  /** The wall belongs to the robot `me` (compared by identity, as `wall.robot is self`). */
  predicate OwnedByMe(s: Surface, me: object) {
    s.owner.OwnedBy? && s.owner.robot == me
  }

  /** The height a hit reports: 1.0 for an ownerless wall, the owning robot's height otherwise. */
  function OwnerHeight(o: Owner): real {
    if o.NoOwner? then 1.0 else o.height
  }

  /** The far end of a ray of length `range` from (x1, y1) at angle a, the angle measured so
      that its sine goes to x and its cosine to y. */
  function RayEnd(x1: real, y1: real, a: real, range: real, m: Math): Point {
    Point(Sin(a, m) * range + x1, Cos(a, m) * range + y1)
  }

  /** The hit that the ray start-end makes on line l of wall s, if the two cross. */
  function LineHit(s: Surface, l: Line, start: Point, end: Point, m: Math): (r: Option<Hit>)
    ensures r.Some? <==> IntersectHit(start, end, l.p1, l.p2).Some?
    ensures r.Some? ==>
      && Point(r.value.x, r.value.y) == IntersectHit(start, end, l.p1, l.p2).value
      && r.value.owner == s.owner && r.value.color == s.color
      && (s.owner.NoOwner? ==> r.value.height == 1.0)
      && (s.owner.OwnedBy? ==> r.value.height == s.owner.height)
      && r.value.distance == Distance(r.value.x, r.value.y, start.x, start.y, m)
      && r.value.distance >= 0.0
      && r.value.startX == start.x && r.value.startY == start.y
  {
    match IntersectHit(start, end, l.p1, l.p2)
    case None => None
    case Some(pos) =>
      Some(Hit(s.owner, OwnerHeight(s.owner), pos.x, pos.y,
               Distance(pos.x, pos.y, start.x, start.y, m), s.color, start.x, start.y))
  }

  function OptionToSeq(o: Option<Hit>): seq<Hit> {
    if o.Some? then [o.value] else []
  }

  /** The hits on the lines `ls` of wall s, in line order. */
  function LineHits(s: Surface, ls: seq<Line>, start: Point, end: Point, m: Math): seq<Hit> {
    if ls == [] then []
    else LineHits(s, ls[..|ls| - 1], start, end, m) + OptionToSeq(LineHit(s, ls[|ls| - 1], start, end, m))
  }

  /** The hits before sorting: walls in registry order, skipping the caster's own, and inside
      each wall its lines in order. */
  function RawHits(ss: seq<Surface>, me: object, start: Point, end: Point, m: Math): seq<Hit> {
    if ss == [] then []
    else
      var s := ss[|ss| - 1];
      RawHits(ss[..|ss| - 1], me, start, end, m) +
        (if OwnedByMe(s, me) then [] else LineHits(s, s.lines, start, end, m))
  }

  /** Inserts h into a farthest-first list after every hit at least as far, so that hits at
      equal distance keep the order in which they were found (the sort is stable). */
  function Insert(sorted: seq<Hit>, h: Hit): seq<Hit> {
    if sorted == [] then [h]
    else if sorted[0].distance >= h.distance then [sorted[0]] + Insert(sorted[1..], h)
    else [h] + sorted
  }

  /** `hits.sort(key=distance, reverse=True)`: a stable sort, farthest first. */
  function FarthestFirst(hs: seq<Hit>): seq<Hit> {
    if hs == [] then []
    else Insert(FarthestFirst(hs[..|hs| - 1]), hs[|hs| - 1])
  }

  predicate FarthestFirstOrder(hs: seq<Hit>) {
    forall i, j :: 0 <= i < j < |hs| ==> hs[i].distance >= hs[j].distance
  }

  /** What `cast_ray` returns. */
  function Cast(ss: seq<Surface>, me: object, x1: real, y1: real, a: real, range: real, m: Math): seq<Hit> {
    FarthestFirst(RawHits(ss, me, Point(x1, y1), RayEnd(x1, y1, a, range, m), m))
  }

  /** `cast_ray`: loops over the walls and their lines collecting hits, then sorts them. */
  method CastRay(ss: seq<Surface>, me: object, x1: real, y1: real, a: real, maxRange: real, m: Math)
    returns (hits: seq<Hit>)
    ensures hits == Cast(ss, me, x1, y1, a, maxRange, m)
  {
    var start := Point(x1, y1);
    var end := RayEnd(x1, y1, a, maxRange, m);
    hits := [];
    var i := 0;
    while i < |ss|
      invariant 0 <= i <= |ss|
      invariant hits == RawHits(ss[..i], me, start, end, m)
    {
      var wall := ss[i];
      assert ss[..i + 1][..i] == ss[..i];
      if OwnedByMe(wall, me) {
        // never detect a hit with yourself
        i := i + 1;
        continue;
      }
      var found := HitsOnWall(wall, start, end, m);
      hits := hits + found;
      i := i + 1;
    }
    assert ss[..i] == ss;
    hits := FarthestFirst(hits);
  }

  /** The inner loop of `cast_ray`: the hits the ray makes on the lines of one wall, in line
      order. */
  method HitsOnWall(wall: Surface, start: Point, end: Point, m: Math) returns (hits: seq<Hit>)
    ensures hits == LineHits(wall, wall.lines, start, end, m)
  {
    hits := [];
    var j := 0;
    while j < |wall.lines|
      invariant 0 <= j <= |wall.lines|
      invariant hits == LineHits(wall, wall.lines[..j], start, end, m)
    {
      var line := wall.lines[j];
      assert wall.lines[..j + 1][..j] == wall.lines[..j];
      var pos := IntersectHit(start, end, line.p1, line.p2);
      if pos.Some? {
        var dist := Distance(pos.value.x, pos.value.y, start.x, start.y, m);
        var height := if wall.owner.NoOwner? then 1.0 else wall.owner.height;
        hits := hits + [Hit(wall.owner, height, pos.value.x, pos.value.y, dist, wall.color, start.x, start.y)];
      }
      j := j + 1;
    }
    assert wall.lines[..j] == wall.lines;
  }

  // ----- the sort -----

  lemma {:induction false} InsertOrdered(sorted: seq<Hit>, h: Hit)
    requires FarthestFirstOrder(sorted)
    ensures FarthestFirstOrder(Insert(sorted, h))
    ensures Insert(sorted, h)[0] == if sorted != [] && sorted[0].distance >= h.distance then sorted[0] else h
  {
    if sorted != [] && sorted[0].distance >= h.distance {
      InsertOrdered(sorted[1..], h);
      var rest := Insert(sorted[1..], h);
      assert sorted[0].distance >= rest[0].distance;
      assert Insert(sorted, h) == [sorted[0]] + rest;
    }
  }

  lemma {:induction false} InsertKeepsHits(sorted: seq<Hit>, h: Hit)
    ensures multiset(Insert(sorted, h)) == multiset(sorted) + multiset{h}
  {
    if sorted != [] && sorted[0].distance >= h.distance {
      InsertKeepsHits(sorted[1..], h);
      assert sorted == [sorted[0]] + sorted[1..];
    }
  }

  /** The sort returns the hits it was given, each as often as it was given, farthest first. */
  lemma {:induction false} FarthestFirstFacts(hs: seq<Hit>)
    ensures FarthestFirstOrder(FarthestFirst(hs))
    ensures multiset(FarthestFirst(hs)) == multiset(hs)
  {
    if hs != [] {
      FarthestFirstFacts(hs[..|hs| - 1]);
      InsertOrdered(FarthestFirst(hs[..|hs| - 1]), hs[|hs| - 1]);
      InsertKeepsHits(FarthestFirst(hs[..|hs| - 1]), hs[|hs| - 1]);
      assert hs == hs[..|hs| - 1] + [hs[|hs| - 1]];
    }
  }

  // ----- what the raw hits are made of -----

  /** A hit that comes from line j of wall k, a wall not owned by `me`. */
  ghost predicate FromWall(h: Hit, ss: seq<Surface>, me: object, start: Point, end: Point, m: Math) {
    exists k, j :: 0 <= k < |ss| && !OwnedByMe(ss[k], me) && 0 <= j < |ss[k].lines| &&
      LineHit(ss[k], ss[k].lines[j], start, end, m) == Some(h)
  }

  lemma {:induction false} LineHitsFrom(s: Surface, ls: seq<Line>, start: Point, end: Point, m: Math, h: Hit)
    requires h in LineHits(s, ls, start, end, m)
    ensures exists j :: 0 <= j < |ls| && LineHit(s, ls[j], start, end, m) == Some(h)
  {
    var init := ls[..|ls| - 1];
    if h in LineHits(s, init, start, end, m) {
      LineHitsFrom(s, init, start, end, m, h);
      var j :| 0 <= j < |init| && LineHit(s, init[j], start, end, m) == Some(h);
      assert ls[j] == init[j];
    } else {
      assert LineHit(s, ls[|ls| - 1], start, end, m) == Some(h);
    }
  }

  lemma {:induction false} RawHitsFrom(ss: seq<Surface>, me: object, start: Point, end: Point, m: Math, h: Hit)
    requires h in RawHits(ss, me, start, end, m)
    ensures FromWall(h, ss, me, start, end, m)
  {
    var init := ss[..|ss| - 1];
    var s := ss[|ss| - 1];
    if h in RawHits(init, me, start, end, m) {
      RawHitsFrom(init, me, start, end, m, h);
      var k, j :| 0 <= k < |init| && !OwnedByMe(init[k], me) && 0 <= j < |init[k].lines| &&
        LineHit(init[k], init[k].lines[j], start, end, m) == Some(h);
      assert ss[k] == init[k];
    } else {
      assert !OwnedByMe(s, me) && h in LineHits(s, s.lines, start, end, m);
      LineHitsFrom(s, s.lines, start, end, m, h);
      var j :| 0 <= j < |s.lines| && LineHit(s, s.lines[j], start, end, m) == Some(h);
      assert ss[|ss| - 1] == s;
    }
  }

  /** Number of lines on walls not owned by `me`: a bound on the number of hits. */
  function VisibleLines(ss: seq<Surface>, me: object): nat {
    if ss == [] then 0
    else VisibleLines(ss[..|ss| - 1], me) + (if OwnedByMe(ss[|ss| - 1], me) then 0 else |ss[|ss| - 1].lines|)
  }

  lemma {:induction false} LineHitsAtMostOneEach(s: Surface, ls: seq<Line>, start: Point, end: Point, m: Math)
    ensures |LineHits(s, ls, start, end, m)| <= |ls|
  {
    if ls != [] {
      LineHitsAtMostOneEach(s, ls[..|ls| - 1], start, end, m);
    }
  }

  lemma {:induction false} RawHitsAtMostOneEach(ss: seq<Surface>, me: object, start: Point, end: Point, m: Math)
    ensures |RawHits(ss, me, start, end, m)| <= VisibleLines(ss, me)
  {
    if ss != [] {
      RawHitsAtMostOneEach(ss[..|ss| - 1], me, start, end, m);
      LineHitsAtMostOneEach(ss[|ss| - 1], ss[|ss| - 1].lines, start, end, m);
    }
  }

  // ----- the properties of cast_ray -----

  /** The result is the raw hits rearranged, farthest first. */
  lemma CastIsSortedPermutation(ss: seq<Surface>, me: object, x1: real, y1: real, a: real, range: real, m: Math)
    ensures FarthestFirstOrder(Cast(ss, me, x1, y1, a, range, m))
    ensures multiset(Cast(ss, me, x1, y1, a, range, m)) ==
            multiset(RawHits(ss, me, Point(x1, y1), RayEnd(x1, y1, a, range, m), m))
  {
    FarthestFirstFacts(RawHits(ss, me, Point(x1, y1), RayEnd(x1, y1, a, range, m), m));
  }

  /** Every hit comes from a line of a wall that the caster does not own, and so carries that
      wall's owner and colour, height 1.0 for an ownerless wall and the owner's height
      otherwise, and its distance from the ray's start. In particular no hit is the caster's. */
  lemma CastHitsComeFromOtherWalls(ss: seq<Surface>, me: object, x1: real, y1: real, a: real, range: real, m: Math)
    ensures forall h :: h in Cast(ss, me, x1, y1, a, range, m) ==>
      FromWall(h, ss, me, Point(x1, y1), RayEnd(x1, y1, a, range, m), m)
    ensures forall h :: h in Cast(ss, me, x1, y1, a, range, m) ==>
      !(h.owner.OwnedBy? && h.owner.robot == me)
  {
    var start, end := Point(x1, y1), RayEnd(x1, y1, a, range, m);
    var raw := RawHits(ss, me, start, end, m);
    FarthestFirstFacts(raw);
    forall h | h in Cast(ss, me, x1, y1, a, range, m)
      ensures FromWall(h, ss, me, start, end, m)
      ensures !(h.owner.OwnedBy? && h.owner.robot == me)
    {
      assert h in multiset(FarthestFirst(raw));
      assert h in raw;
      RawHitsFrom(ss, me, start, end, m, h);
      var k, j :| 0 <= k < |ss| && !OwnedByMe(ss[k], me) && 0 <= j < |ss[k].lines| &&
        LineHit(ss[k], ss[k].lines[j], start, end, m) == Some(h);
    }
  }

  /** Every hit lies at a non-negative distance from the ray's start. */
  lemma CastDistancesNonNegative(ss: seq<Surface>, me: object, x1: real, y1: real, a: real, range: real, m: Math)
    ensures forall h :: h in Cast(ss, me, x1, y1, a, range, m) ==> h.distance >= 0.0
  {
    var start, end := Point(x1, y1), RayEnd(x1, y1, a, range, m);
    CastHitsComeFromOtherWalls(ss, me, x1, y1, a, range, m);
    forall h | h in Cast(ss, me, x1, y1, a, range, m) ensures h.distance >= 0.0 {
      var k, j :| 0 <= k < |ss| && !OwnedByMe(ss[k], me) && 0 <= j < |ss[k].lines| &&
        LineHit(ss[k], ss[k].lines[j], start, end, m) == Some(h);
    }
  }

  /** At most one hit per line of the other walls. */
  lemma CastAtMostOneHitPerLine(ss: seq<Surface>, me: object, x1: real, y1: real, a: real, range: real, m: Math)
    ensures |Cast(ss, me, x1, y1, a, range, m)| <= VisibleLines(ss, me)
  {
    var raw := RawHits(ss, me, Point(x1, y1), RayEnd(x1, y1, a, range, m), m);
    FarthestFirstFacts(raw);
    RawHitsAtMostOneEach(ss, me, Point(x1, y1), RayEnd(x1, y1, a, range, m), m);
    assert |multiset(FarthestFirst(raw))| == |multiset(raw)|;
  }

  lemma {:induction false} DegenerateRayLineHits(s: Surface, ls: seq<Line>, p: Point, m: Math)
    ensures LineHits(s, ls, p, p, m) == []
  {
    if ls != [] {
      DegenerateRayLineHits(s, ls[..|ls| - 1], p, m);
      ParallelNeverHit(p, p, ls[|ls| - 1].p1, ls[|ls| - 1].p2);
    }
  }

  lemma {:induction false} DegenerateRayRawHits(ss: seq<Surface>, me: object, p: Point, m: Math)
    ensures RawHits(ss, me, p, p, m) == []
  {
    if ss != [] {
      DegenerateRayRawHits(ss[..|ss| - 1], me, p, m);
      DegenerateRayLineHits(ss[|ss| - 1], ss[|ss| - 1].lines, p, m);
    }
  }

  /** A ray of length zero is a single point, parallel to everything: it hits nothing. */
  lemma ZeroRangeHitsNothing(ss: seq<Surface>, me: object, x1: real, y1: real, a: real, m: Math)
    ensures Cast(ss, me, x1, y1, a, 0.0, m) == []
  {
    assert RayEnd(x1, y1, a, 0.0, m) == Point(x1, y1);
    DegenerateRayRawHits(ss, me, Point(x1, y1), m);
  }

  /** The nearest hit is the last one: none of the others is closer. */
  lemma LastIsNearest(ss: seq<Surface>, me: object, x1: real, y1: real, a: real, range: real, m: Math)
    requires Cast(ss, me, x1, y1, a, range, m) != []
    ensures var hs := Cast(ss, me, x1, y1, a, range, m);
      forall h :: h in hs ==> hs[|hs| - 1].distance <= h.distance
  {
    CastIsSortedPermutation(ss, me, x1, y1, a, range, m);
  }
}
