/** Colours, points, lines and the RGBA picture buffer of the simulator's utilities. */
module Utils {
  import opened Wrappers

  /** An RGBA colour; components are stored as given (the camera computes fractional ones). */
  datatype Color = Color(red: real, green: real, blue: real, alpha: real)

  /** The colour constructor: an omitted green or blue copies red, an omitted alpha is 255. */
  function MakeColor(red: real, green: Option<real>, blue: Option<real>, alpha: Option<real>): (c: Color)
    ensures c.red == red
    ensures c.green == (if green.Some? then green.value else red)
    ensures c.blue == (if blue.Some? then blue.value else red)
    ensures c.alpha == (if alpha.Some? then alpha.value else 255.0)
  {
    Color(red,
          match green case Some(g) => g case None => red,
          match blue case Some(b) => b case None => red,
          match alpha case Some(a) => a case None => 255.0)
  }

  /** `Color(v)`: a grey of level v, fully opaque. */
  function Grey(v: real): Color { MakeColor(v, None, None, None) }

  /** `Color(r, g, b)`: fully opaque. */
  function Rgb(r: real, g: real, b: real): Color { MakeColor(r, Some(g), Some(b), None) }

  lemma GreyIsUniform(v: real)
    ensures Grey(v) == Color(v, v, v, 255.0)
  {}

  /** A point of the arena. */
  datatype Point = Point(x: real, y: real)

  /** A segment between two points; used for walls, bounding boxes and rays. */
  datatype Line = Line(p1: Point, p2: Point)

  /** A width by height RGBA buffer, four components per pixel, row after row. */
  class Picture {
    const width: int
    const height: int
    const data: array<real>

    constructor (width: nat, height: nat)
      ensures this.width == width && this.height == height
      ensures fresh(data) && data.Length == width * height * 4
      ensures forall k :: 0 <= k < data.Length ==> data[k] == 0.0
    {
      this.width := width;
      this.height := height;
      data := new real[width * height * 4](_ => 0.0);
    }

    /** Offset of the red component of pixel (x, y). */
    function Position(x: int, y: int): (pos: int)
      ensures pos == 4 * (y * width + x)
    {
      (y * width * 4) + (x * 4)
    }

    /** Writes the four components of `c` at pixel (x, y) and nothing else. */
    method Set(x: int, y: int, c: Color)
      requires 0 <= Position(x, y) && Position(x, y) + 4 <= data.Length
      modifies data
      ensures data[Position(x, y)..Position(x, y) + 4] == [c.red, c.green, c.blue, c.alpha]
      ensures forall k :: 0 <= k < data.Length && !(Position(x, y) <= k < Position(x, y) + 4) ==>
        data[k] == old(data[k])
      ensures Get(x, y) == c.red
    {
      var pos := Position(x, y);
      data[pos + 0] := c.red;
      data[pos + 1] := c.green;
      data[pos + 2] := c.blue;
      data[pos + 3] := c.alpha;
    }

    /** The red component of pixel (x, y), read at offset `(x + y * width) * 4`. */
    function Get(x: int, y: int): (r: real)
      reads data
      requires 0 <= Position(x, y) < data.Length
      ensures r == data[Position(x, y)]
    {
      data[(x + y * width) * 4]
    }
  }

  /** Pixels of one row-major grid never share a component slot: distinct in-row pixels
      have offsets at least four apart. */
  lemma PositionsDisjoint(p: Picture, x1: int, y1: int, x2: int, y2: int)
    requires 0 <= x1 < p.width && 0 <= x2 < p.width
    requires (x1, y1) != (x2, y2)
    ensures p.Position(x1, y1) + 4 <= p.Position(x2, y2) || p.Position(x2, y2) + 4 <= p.Position(x1, y1)
  {
    var w := p.width;
    if y1 == y2 {
    } else if y1 < y2 {
      assert (y2 - y1) * w >= w by { assert y2 - y1 >= 1; }
      assert y2 * w - y1 * w == (y2 - y1) * w;
    } else {
      assert (y1 - y2) * w >= w by { assert y1 - y2 >= 1; }
      assert y1 * w - y2 * w == (y1 - y2) * w;
    }
  }
}
