/**
 * Shape geometry of the drawing board: the path that `drawShape` builds for a
 * tool from the gesture's start point and the current pointer position
 * (project/src/components/DrawingBoard.tsx, lines 119-192).
 *
 * Coordinates are reals; floating-point rounding is not modelled.  The
 * transcendental functions the code calls (Math.cos, Math.sin, Math.atan2,
 * Math.sqrt) are not defined here: they are a `MathLib` value handed to every
 * function that needs them, so every statement below holds for any
 * implementation of them, and the few that need their real behaviour say so
 * with `WellBehaved`.
 */
module Geometry {
  import opened Wrappers

  /** A position in canvas (device-pixel) coordinates. */
  datatype Point = Point(x: real, y: real)

  /** One call on the 2D context's current path. */
  datatype PathCmd =
    | MoveTo(p: Point)
    | LineTo(p: Point)
    | Rect(x: real, y: real, w: real, h: real)
    | Arc(center: Point, radius: real, startAngle: real, endAngle: real)
    | ClosePath

  /** The platform's Math.cos, Math.sin, Math.atan2 and Math.sqrt. */
  datatype MathLib = MathLib(
    cos: real -> real,
    sin: real -> real,
    atan2: (real, real) -> real,
    sqrt: real -> real)

  /** The properties of the real functions that some statements rely on. */
  ghost predicate WellBehaved(m: MathLib)
  {
    (forall t :: -1.0 <= m.cos(t) <= 1.0) &&
    (forall t :: -1.0 <= m.sin(t) <= 1.0) &&
    (forall a :: a >= 0.0 ==> m.sqrt(a) >= 0.0)
  }

  /** Math.PI, the double nearest to pi. */
  const PI: real := 3.141592653589793

  /** The tools of the palette (project/src/App.tsx), plus `rectangle`, which drawShape also handles. */
  datatype Tool = Brush | Eraser | Square | Circle | Triangle | Arrow | Line | Hexagon | Pentagon | Rectangle
  {
    /** The string id the board receives in its `tool` property. */
    function Id(): string
    {
      match this
      case Brush => "brush"
      case Eraser => "eraser"
      case Square => "square"
      case Circle => "circle"
      case Triangle => "triangle"
      case Arrow => "arrow"
      case Line => "line"
      case Hexagon => "hexagon"
      case Pentagon => "pentagon"
      case Rectangle => "rectangle"
    }
  }

  /** The tool a string id names, if any. */
  function ToolOf(id: string): (t: Option<Tool>)
    ensures t.Some? ==> t.value.Id() == id
  {
    if id == "brush" then Some(Brush)
    else if id == "eraser" then Some(Eraser)
    else if id == "square" then Some(Square)
    else if id == "circle" then Some(Circle)
    else if id == "triangle" then Some(Triangle)
    else if id == "arrow" then Some(Arrow)
    else if id == "line" then Some(Line)
    else if id == "hexagon" then Some(Hexagon)
    else if id == "pentagon" then Some(Pentagon)
    else if id == "rectangle" then Some(Rectangle)
    else None
  }

  /** Every tool's id is recognised as that tool, so ids are distinct. */
  lemma ToolOfId(t: Tool)
    ensures ToolOf(t.Id()) == Some(t)
  {
  }

  /** Freehand tools extend a path instead of drawing a shape. */
  predicate IsFreehand(tool: string)
  {
    tool == "brush" || tool == "eraser"
  }

  function Abs(a: real): (r: real)
    ensures r >= 0.0 && (r == a || r == -a)
  {
    if a < 0.0 then -a else a
  }

  /** Math.sqrt(Math.pow(dx, 2) + Math.pow(dy, 2)). */
  function Distance(m: MathLib, a: Point, b: Point): real
  {
    m.sqrt((b.x - a.x) * (b.x - a.x) + (b.y - a.y) * (b.y - a.y))
  }

  /** The point at distance r from c in the direction of angle. */
  function Polar(m: MathLib, c: Point, r: real, angle: real): Point
  {
    Point(c.x + r * m.cos(angle), c.y + r * m.sin(angle))
  }

  /** Vertex i of a regular n-gon around c with circumradius r: angle i * 2 * PI / n. */
  function Vertex(m: MathLib, c: Point, r: real, i: nat, n: nat): Point
    requires n > 0
  {
    Polar(m, c, r, (i as real * 2.0 * PI) / n as real)
  }

  /** The lineTo commands to vertices 1 .. k. */
  function Sides(m: MathLib, c: Point, r: real, n: nat, k: nat): seq<PathCmd>
    requires n > 0
  {
    if k == 0 then [] else Sides(m, c, r, n, k - 1) + [LineTo(Vertex(m, c, r, k, n))]
  }

  /** A regular polygon with n sides centred on `c` whose first vertex is at angle 0. */
  function PolygonOutline(m: MathLib, c: Point, current: Point, n: nat): seq<PathCmd>
    requires n > 0
  {
    var r := Distance(m, c, current);
    [MoveTo(Polar(m, c, r, 0.0))] + Sides(m, c, r, n, n) + [ClosePath]
  }

  /** Math.min(length * 0.3, 20): the arrowhead never exceeds 20 pixels nor 30% of the shaft. */
  function HeadLength(length: real): (h: real)
    ensures h <= 20.0 && h <= length * 0.3
    ensures h == 20.0 || h == length * 0.3
  {
    if length * 0.3 < 20.0 then length * 0.3 else 20.0
  }

  /** The end of one arrowhead barb, drawn back from `tip` at `angle`. */
  function Barb(m: MathLib, tip: Point, h: real, angle: real): Point
  {
    Point(tip.x - h * m.cos(angle), tip.y - h * m.sin(angle))
  }

  function ArrowOutline(m: MathLib, s: Point, p: Point): seq<PathCmd>
  {
    var angle := m.atan2(p.y - s.y, p.x - s.x);
    var h := HeadLength(Distance(m, s, p));
    var headAngle := PI / 6.0;
    [MoveTo(s), LineTo(p),
     MoveTo(p), LineTo(Barb(m, p, h, angle - headAngle)),
     MoveTo(p), LineTo(Barb(m, p, h, angle + headAngle))]
  }

  /** The path drawShape builds for `shape`; the switch has no default, so an unhandled id gives []. */
  function Outline(m: MathLib, shape: string, s: Point, p: Point): (r: seq<PathCmd>)
    ensures ToolOf(shape) in {None, Some(Brush), Some(Eraser)} ==> r == []
  {
    if shape == "square" then
      var size := Abs(p.x - s.x);
      [Rect(s.x, s.y, size, size)]
    else if shape == "rectangle" then
      [Rect(s.x, s.y, p.x - s.x, p.y - s.y)]
    else if shape == "circle" then
      [Arc(s, Distance(m, s, p), 0.0, 2.0 * PI)]
    else if shape == "triangle" then
      [MoveTo(s), LineTo(p), LineTo(Point(s.x - (p.x - s.x), p.y)), ClosePath]
    else if shape == "pentagon" then
      PolygonOutline(m, s, p, 5)
    else if shape == "hexagon" then
      PolygonOutline(m, s, p, 6)
    else if shape == "arrow" then
      ArrowOutline(m, s, p)
    else if shape == "line" then
      [MoveTo(s), LineTo(p)]
    else
      []
  }

  /** drawShape, with the source's loop over the polygon's sides. */
  method DrawShape(m: MathLib, shape: string, start: Point, x: real, y: real) returns (cmds: seq<PathCmd>)
    ensures cmds == Outline(m, shape, start, Point(x, y))
  {
    cmds := [];
    if shape == "square" {
      var size := Abs(x - start.x);
      cmds := [Rect(start.x, start.y, size, size)];
    } else if shape == "rectangle" {
      cmds := [Rect(start.x, start.y, x - start.x, y - start.y)];
    } else if shape == "circle" {
      var radius := Distance(m, start, Point(x, y));
      cmds := [Arc(start, radius, 0.0, 2.0 * PI)];
    } else if shape == "triangle" {
      cmds := [MoveTo(start), LineTo(Point(x, y)), LineTo(Point(start.x - (x - start.x), y)), ClosePath];
    } else if shape == "pentagon" {
      cmds := TracePolygon(m, start, Point(x, y), 5);
    } else if shape == "hexagon" {
      cmds := TracePolygon(m, start, Point(x, y), 6);
    } else if shape == "arrow" {
      var angle := m.atan2(y - start.y, x - start.x);
      var length := Distance(m, start, Point(x, y));
      var headLength := HeadLength(length);
      var headAngle := PI / 6.0;
      cmds := [MoveTo(start), LineTo(Point(x, y))];
      cmds := cmds + [MoveTo(Point(x, y)), LineTo(Barb(m, Point(x, y), headLength, angle - headAngle))];
      cmds := cmds + [MoveTo(Point(x, y)), LineTo(Barb(m, Point(x, y), headLength, angle + headAngle))];
    } else if shape == "line" {
      cmds := [MoveTo(start), LineTo(Point(x, y))];
    }
  }

  /** The pentagon and hexagon cases: one moveTo, a lineTo per side, closePath. */
  method TracePolygon(m: MathLib, c: Point, current: Point, sides: nat) returns (cmds: seq<PathCmd>)
    requires sides > 0
    ensures cmds == PolygonOutline(m, c, current, sides)
  {
    var radius := Distance(m, c, current);
    var first := MoveTo(Polar(m, c, radius, 0.0));
    cmds := [first];
    for i := 1 to sides + 1
      invariant cmds == [first] + Sides(m, c, radius, sides, i - 1)
    {
      var angle := (i as real * 2.0 * PI) / sides as real;
      cmds := cmds + [LineTo(Polar(m, c, radius, angle))];
    }
    cmds := cmds + [ClosePath];
  }

  // ---------------------------------------------------------------------
  // Counting path commands

  function Moves(cmds: seq<PathCmd>): nat
  {
    if cmds == [] then 0 else (if cmds[0].MoveTo? then 1 else 0) + Moves(cmds[1..])
  }

  function Lines(cmds: seq<PathCmd>): nat
  {
    if cmds == [] then 0 else (if cmds[0].LineTo? then 1 else 0) + Lines(cmds[1..])
  }

  function Closes(cmds: seq<PathCmd>): nat
  {
    if cmds == [] then 0 else (if cmds[0].ClosePath? then 1 else 0) + Closes(cmds[1..])
  }

  lemma {:induction false} CountsConcat(a: seq<PathCmd>, b: seq<PathCmd>)
    ensures Moves(a + b) == Moves(a) + Moves(b)
    ensures Lines(a + b) == Lines(a) + Lines(b)
    ensures Closes(a + b) == Closes(a) + Closes(b)
  {
    if a == [] {
      assert a + b == b;
    } else {
      assert (a + b)[0] == a[0];
      assert (a + b)[1..] == a[1..] + b;
      CountsConcat(a[1..], b);
    }
  }

  /** Sides(k) is exactly k lineTo commands, the j-th going to vertex j + 1. */
  lemma {:induction false} SidesAreLines(m: MathLib, c: Point, r: real, n: nat, k: nat)
    requires n > 0
    ensures |Sides(m, c, r, n, k)| == k
    ensures forall j :: 0 <= j < k ==> Sides(m, c, r, n, k)[j] == LineTo(Vertex(m, c, r, j + 1, n))
    ensures Moves(Sides(m, c, r, n, k)) == 0
    ensures Lines(Sides(m, c, r, n, k)) == k
    ensures Closes(Sides(m, c, r, n, k)) == 0
  {
    if k > 0 {
      var last := LineTo(Vertex(m, c, r, k, n));
      SidesAreLines(m, c, r, n, k - 1);
      CountsConcat(Sides(m, c, r, n, k - 1), [last]);
      assert Moves([last]) == 0 && Lines([last]) == 1 && Closes([last]) == 0;
    }
  }

  // ---------------------------------------------------------------------
  // Properties of the outlines

  /** A square's side is |x - start.x| for both width and height: the vertical drag is ignored. */
  lemma SquareIsIsotropic(m: MathLib, s: Point, p: Point, otherY: real)
    ensures var size := Abs(p.x - s.x);
      Outline(m, "square", s, p) == [Rect(s.x, s.y, size, size)] && size >= 0.0
    ensures Outline(m, "square", s, p) == Outline(m, "square", s, Point(p.x, otherY))
  {
  }

  /** A rectangle spans from the start point to the current point. */
  lemma RectangleSpansDrag(m: MathLib, s: Point, p: Point)
    ensures |Outline(m, "rectangle", s, p)| == 1
    ensures var r := Outline(m, "rectangle", s, p)[0];
      r.Rect? && r.x == s.x && r.y == s.y && r.x + r.w == p.x && r.y + r.h == p.y
  {
  }

  /** A circle is one full arc around the start point through the current point. */
  lemma CircleIsFullArc(m: MathLib, s: Point, p: Point)
    ensures Outline(m, "circle", s, p) == [Arc(s, Distance(m, s, p), 0.0, 2.0 * PI)]
    ensures WellBehaved(m) ==> Distance(m, s, p) >= 0.0
  {
  }

  /**
   * The triangle's apex is the start point, one base vertex is the current point and the
   * other is its mirror image across the vertical through the apex; the path is closed.
   */
  lemma TriangleMirrorsAcrossApex(m: MathLib, s: Point, p: Point)
    ensures var t := Outline(m, "triangle", s, p);
      |t| == 4 && t[0] == MoveTo(s) && t[1] == LineTo(p) && t[2].LineTo? && t[3] == ClosePath
    ensures var v := Outline(m, "triangle", s, p)[2].p;
      v.y == p.y && v.x + p.x == 2.0 * s.x && Abs(v.x - s.x) == Abs(p.x - s.x)
  {
  }

  /** A pentagon (hexagon) is one moveTo, then 5 (6) lineTo to the vertices 1..n, then closePath. */
  lemma PolygonCommandCounts(m: MathLib, shape: string, s: Point, p: Point)
    requires shape == "pentagon" || shape == "hexagon"
    ensures var n := if shape == "pentagon" then 5 else 6;
      var path := Outline(m, shape, s, p);
      |path| == n + 2 && path[0].MoveTo? && path[n + 1] == ClosePath &&
      Moves(path) == 1 && Lines(path) == n && Closes(path) == 1 &&
      (forall j :: 1 <= j <= n ==> path[j] == LineTo(Vertex(m, s, Distance(m, s, p), j, n)))
  {
    if shape == "pentagon" {
      PolygonCounts(m, s, p, 5);
    } else {
      PolygonCounts(m, s, p, 6);
    }
  }

  lemma PolygonCounts(m: MathLib, c: Point, p: Point, n: nat)
    requires n > 0
    ensures var path := PolygonOutline(m, c, p, n);
      |path| == n + 2 && path[0].MoveTo? && path[n + 1] == ClosePath &&
      Moves(path) == 1 && Lines(path) == n && Closes(path) == 1 &&
      (forall j :: 1 <= j <= n ==> path[j] == LineTo(Vertex(m, c, Distance(m, c, p), j, n)))
  {
    var r := Distance(m, c, p);
    var first := [MoveTo(Polar(m, c, r, 0.0))];
    var sides := Sides(m, c, r, n, n);
    SidesAreLines(m, c, r, n, n);
    CountsConcat(first, sides);
    CountsConcat(first + sides, [ClosePath]);
    var path := PolygonOutline(m, c, p, n);
    assert path == first + sides + [ClosePath];
    forall j | 1 <= j <= n
      ensures path[j] == LineTo(Vertex(m, c, r, j, n))
    {
      assert (first + sides)[j] == sides[j - 1];
      assert path[j] == (first + sides)[j];
    }
  }

  /** The first polygon vertex is vertex 0 (angle 0) and the last lineTo goes to angle 2 * PI. */
  lemma PolygonAngles(m: MathLib, c: Point, r: real, n: nat)
    requires n > 0
    ensures Vertex(m, c, r, 0, n) == Polar(m, c, r, 0.0)
    ensures Vertex(m, c, r, n, n) == Polar(m, c, r, 2.0 * PI)
  {
    assert (n as real * 2.0 * PI) / n as real == 2.0 * PI;
  }

  lemma BarbBound(h: real, t: real)
    requires 0.0 <= h <= 20.0 && -1.0 <= t <= 1.0
    ensures -20.0 <= h * t <= 20.0
  {
    if t >= 0.0 {
      assert h * t <= h * 1.0;
    } else {
      assert h * t >= h * -1.0;
    }
  }

  /** An arrow is the shaft and two barbs drawn back from the tip: three open subpaths. */
  lemma ArrowIsThreeSegments(m: MathLib, s: Point, p: Point)
    ensures var a := Outline(m, "arrow", s, p);
      |a| == 6 && a[0] == MoveTo(s) && a[1] == LineTo(p) && a[2] == MoveTo(p) && a[4] == MoveTo(p) &&
      a[3].LineTo? && a[5].LineTo? && Closes(a) == 0 && Moves(a) == 3 && Lines(a) == 3
  {
    var a := Outline(m, "arrow", s, p);
    assert a == ArrowOutline(m, s, p);
    var seg1, seg2, seg3 := a[..2], a[2..4], a[4..];
    SegmentCounts(s, p);
    SegmentCounts(p, a[3].p);
    SegmentCounts(p, a[5].p);
    assert a == seg1 + (seg2 + seg3);
    CountsConcat(seg2, seg3);
    CountsConcat(seg1, seg2 + seg3);
  }

  /** One open segment: a moveTo and a lineTo. */
  lemma SegmentCounts(a: Point, b: Point)
    ensures Moves([MoveTo(a), LineTo(b)]) == 1
    ensures Lines([MoveTo(a), LineTo(b)]) == 1
    ensures Closes([MoveTo(a), LineTo(b)]) == 0
  {
    assert [MoveTo(a), LineTo(b)][1..] == [LineTo(b)];
    assert [LineTo(b)][1..] == [];
    assert Moves([LineTo(b)]) == 0 && Lines([LineTo(b)]) == 1 && Closes([LineTo(b)]) == 0;
  }

  /**
   * Each barb is HeadLength long, so with the real sine, cosine and square root its end lies
   * within 20 pixels of the tip on each axis however long the drag.
   */
  lemma ArrowheadIsBounded(m: MathLib, s: Point, p: Point)
    requires WellBehaved(m)
    ensures var a := ArrowOutline(m, s, p);
      Abs(a[3].p.x - p.x) <= 20.0 && Abs(a[3].p.y - p.y) <= 20.0 &&
      Abs(a[5].p.x - p.x) <= 20.0 && Abs(a[5].p.y - p.y) <= 20.0
  {
    var angle := m.atan2(p.y - s.y, p.x - s.x);
    var len := Distance(m, s, p);
    var h := HeadLength(len);
    assert len >= 0.0;
    assert 0.0 <= h <= 20.0;
    var t1, t2 := angle - PI / 6.0, angle + PI / 6.0;
    BarbBound(h, m.cos(t1));
    BarbBound(h, m.sin(t1));
    BarbBound(h, m.cos(t2));
    BarbBound(h, m.sin(t2));
  }

  /** A line is a single segment from the start point to the current point. */
  lemma LineIsOneSegment(m: MathLib, s: Point, p: Point)
    ensures Outline(m, "line", s, p) == [MoveTo(s), LineTo(p)]
  {
  }

  /** drawShape draws nothing exactly for the freehand tools and for ids that name no tool. */
  lemma OutlineEmptyIff(m: MathLib, shape: string, s: Point, p: Point)
    ensures Outline(m, shape, s, p) == [] <==> ToolOf(shape) in {None, Some(Brush), Some(Eraser)}
  {
    if shape == "pentagon" || shape == "hexagon" {
      PolygonCommandCounts(m, shape, s, p);
    }
  }
}
